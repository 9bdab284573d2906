/** Ingestion of signed messages into the event table, as a state machine over message
    deliveries. Messages may be delivered any number of times and in any order, and the
    outside world (owner lookups, coin lists, prices) may answer differently each time. */
module Pipeline {
  import opened Options
  import opened Numerals
  import opened Text
  import opened RowKeys
  import opened TransferAmount

  datatype Family = TransferPayload | AssetMetaPayload | NftPayload | TransferDetails | ChainDetails

  type Cell = (Family, string)
  type Cells = map<Cell, string>

  datatype Message = Message(key: Key, payload: seq<byte>)

  /** Which emitter addresses count as token bridges and as NFT bridges, and the one that is
      a token bridge on one chain and an NFT bridge on another. */
  datatype Emitters = Emitters(tokens: set<string>, nfts: set<string>, shared: string)

  datatype Write = Write(row: string, cells: Cells)

  datatype State = State(
    rows: map<string, Cells>,
    published: set<Message>,      // handed to the second stage
    log: seq<Write>)              // mutations that were applied

  /** What the outside world answers while a message is processed. */
  datatype World = World(
    receiver: Option<string>,                 // native receiver address, or a failed lookup
    rawAmount: string,                        // the number library's bytes, for large amounts
    meta: Option<map<string, string>>,        // asset columns, or a decoding error
    nft: Option<map<string, string>>)         // NFT columns, or a decoding error

  datatype Details = Details(decimals: nat, others: map<string, string>)

  datatype Action =
    | DeliverVaa(m: Message, world: World)
    | DeliverTransfer(m: Message, details: Option<Details>)   // none: no price, no metadata

  const PAYLOAD_ID := "PayloadId"
  const AMOUNT := "Amount"
  const DECIMALS := "Decimals"
  const RECEIVER: Cell := (ChainDetails, "ReceiverAddress")

  predicate IsTokenBridge(e: Emitters, k: Key) {
    ToHex(k.address) in e.tokens && !(k.chain == 4 && ToHex(k.address) == e.shared)
  }

  function CellsOf(s: State, row: string): Cells {
    if row in s.rows then s.rows[row] else map[]
  }

  /** The columns of one family. */
  function InFamily(f: Family, columns: map<string, string>): (cells: Cells)
    ensures forall c: Cell :: c in cells <==> c.0 == f && c.1 in columns
    ensures forall x <- columns :: cells[(f, x)] == columns[x]
  {
    map x | x in columns :: (f, x) := columns[x]
  }

  /** A mutation guarded by a cell: it is applied only if the row does not have that cell. */
  function Guarded(s: State, row: string, guard: Cell, cells: Cells): State {
    if guard in CellsOf(s, row) then s
    else s.(rows := s.rows[row := CellsOf(s, row) + cells], log := s.log + [Write(row, cells)])
  }

  function TransferColumns(t: TokenTransfer, rawAmount: string): map<string, string>
    requires |t.limbs| == 4
  {
    map[PAYLOAD_ID := Decimal(t.payloadId),
        AMOUNT := if t.limbs[2] == 0 then StoredAmount(t) else rawAmount,
        "OriginAddress" := ToHex(t.originAddress), "OriginChain" := Decimal(t.originChain),
        "TargetAddress" := ToHex(t.targetAddress), "TargetChain" := Decimal(t.targetChain)]
  }

  /** First stage: decode the payload and save it to the message's row. */
  function ProcessVaa(e: Emitters, s: State, m: Message, w: World): State {
    var row := MakeRowKey(m.key);
    if m.payload == [] then s
    else if IsTokenBridge(e, m.key) then
      if m.payload[0] == 1 then
        var r := Decoded(m.payload);
        if !r.Ok? || w.receiver.None? then s
        else
          var s' := Guarded(s, row, (TransferPayload, PAYLOAD_ID),
                            InFamily(TransferPayload, TransferColumns(r.value, w.rawAmount))[RECEIVER := w.receiver.value]);
          s'.(published := s.published + {m})
      else if m.payload[0] == 2 then
        if w.meta.None? then s
        else Guarded(s, row, (AssetMetaPayload, PAYLOAD_ID),
                     InFamily(AssetMetaPayload, w.meta.value[PAYLOAD_ID := Decimal(m.payload[0])]))
      else s
    else if ToHex(m.key.address) in e.nfts then
      if m.payload[0] == 1 then
        if w.nft.None? || w.receiver.None? then s
        else Guarded(s, row, (NftPayload, PAYLOAD_ID),
                     InFamily(NftPayload, w.nft.value[PAYLOAD_ID := Decimal(m.payload[0])])[RECEIVER := w.receiver.value])
      else s
    else s
  }

  function PointNotation(p: Parts): string {
    p.whole + "." + p.fraction
  }

  function DetailColumns(row: Cells, d: Details): map<string, string> {
    var amount := if (TransferPayload, AMOUNT) in row then row[(TransferPayload, AMOUNT)] else "";
    d.others[AMOUNT := PointNotation(Scaled(amount, d.decimals))][DECIMALS := Decimal(Min(d.decimals, 8))]
  }

  /** Second stage: work out the transfer's details from the saved payload. */
  function ProcessTransfer(s: State, m: Message, details: Option<Details>): State {
    var row := MakeRowKey(m.key);
    if m !in s.published || details.None? then s
    else Guarded(s, row, (TransferDetails, AMOUNT),
                 InFamily(TransferDetails, DetailColumns(CellsOf(s, row), details.value)))
  }

  function Step(e: Emitters, s: State, a: Action): State {
    match a
    case DeliverVaa(m, w) => ProcessVaa(e, s, m, w)
    case DeliverTransfer(m, d) => ProcessTransfer(s, m, d)
  }

  function Run(e: Emitters, s: State, run: seq<Action>): State {
    if run == [] then s else Step(e, Run(e, s, run[..|run| - 1]), run[|run| - 1])
  }

  const START := State(map[], {}, [])

  // ----- the invariant -----

  /** The cell whose presence guards a family. */
  function GuardOf(f: Family): Cell {
    match f
    case TransferDetails => (TransferDetails, AMOUNT)
    case ChainDetails => RECEIVER
    case _ => (f, PAYLOAD_ID)
  }

  ghost predicate RowOk(e: Emitters, k: Key, cells: Cells) {
    (forall c <- cells :: GuardOf(c.0) in cells)
    && ((TransferPayload, PAYLOAD_ID) in cells ==>
          IsTokenBridge(e, k) && RECEIVER in cells && (TransferPayload, AMOUNT) in cells)
    && ((NftPayload, PAYLOAD_ID) in cells ==> !IsTokenBridge(e, k) && RECEIVER in cells)
    && (RECEIVER in cells ==> (TransferPayload, PAYLOAD_ID) in cells || (NftPayload, PAYLOAD_ID) in cells)
    && ((TransferDetails, AMOUNT) in cells ==> (TransferPayload, PAYLOAD_ID) in cells)
  }

  ghost predicate RowsOk(e: Emitters, s: State) {
    forall k: Key :: RowOk(e, k, CellsOf(s, MakeRowKey(k)))
  }

  ghost predicate PublishedOk(s: State) {
    forall m <- s.published :: (TransferPayload, PAYLOAD_ID) in CellsOf(s, MakeRowKey(m.key))
  }

  /** Each cell of each row was written exactly once, and holds what was written. */
  ghost predicate WrittenOnce(s: State) {
    (forall i :: 0 <= i < |s.log| ==>
       forall c <- s.log[i].cells :: c in CellsOf(s, s.log[i].row) && CellsOf(s, s.log[i].row)[c] == s.log[i].cells[c])
    && (forall i, j :: 0 <= i < j < |s.log| && s.log[i].row == s.log[j].row ==>
          s.log[i].cells.Keys !! s.log[j].cells.Keys)
  }

  ghost predicate Inv(e: Emitters, s: State) {
    RowsOk(e, s) && PublishedOk(s) && WrittenOnce(s)
  }

  /** Cells only ever get added. */
  ghost predicate Grows(s: State, s': State) {
    forall row, c :: c in CellsOf(s, row) ==> c in CellsOf(s', row) && CellsOf(s', row)[c] == CellsOf(s, row)[c]
  }

  /** A guarded mutation of cells the row does not have yet. */
  lemma GuardedKeeps(e: Emitters, s: State, k: Key, guard: Cell, cells: Cells)
    requires Inv(e, s)
    requires guard !in CellsOf(s, MakeRowKey(k)) ==>
               cells.Keys !! CellsOf(s, MakeRowKey(k)).Keys && RowOk(e, k, CellsOf(s, MakeRowKey(k)) + cells)
    ensures Inv(e, Guarded(s, MakeRowKey(k), guard, cells)) && Grows(s, Guarded(s, MakeRowKey(k), guard, cells))
  {
    var row := MakeRowKey(k);
    var s' := Guarded(s, row, guard, cells);
    if s' != s {
      forall k': Key ensures RowOk(e, k', CellsOf(s', MakeRowKey(k'))) {
        MakeRowKeyInjective(k, k');
        assert RowOk(e, k', CellsOf(s, MakeRowKey(k')));
      }
      GuardedWrittenOnce(s, row, guard, cells);
    }
  }

  lemma GuardedWrittenOnce(s: State, row: string, guard: Cell, cells: Cells)
    requires WrittenOnce(s) && guard !in CellsOf(s, row) && cells.Keys !! CellsOf(s, row).Keys
    ensures WrittenOnce(Guarded(s, row, guard, cells))
  {
    var s' := Guarded(s, row, guard, cells);
    forall i, j | 0 <= i < j < |s'.log| && s'.log[i].row == s'.log[j].row
      ensures s'.log[i].cells.Keys !! s'.log[j].cells.Keys
    {
      if j == |s.log| {
        assert s'.log[i] == s.log[i] && s'.log[j] == Write(row, cells);
      }
    }
  }

  // What each mutation does to a good row that does not have its guard yet.

  lemma AddTransfer(e: Emitters, k: Key, row: Cells, columns: map<string, string>, receiver: string)
    requires RowOk(e, k, row) && IsTokenBridge(e, k) && (TransferPayload, PAYLOAD_ID) !in row
    requires PAYLOAD_ID in columns && AMOUNT in columns
    ensures var cells := InFamily(TransferPayload, columns)[RECEIVER := receiver];
      cells.Keys !! row.Keys && RowOk(e, k, row + cells)
  {
    var cells := InFamily(TransferPayload, columns)[RECEIVER := receiver];
    assert RECEIVER !in row;
    forall c <- row ensures c !in cells {
      assert GuardOf(c.0) in row;
    }
    forall c <- row + cells ensures GuardOf(c.0) in row + cells {
      if c in row { assert GuardOf(c.0) in row; }
    }
  }

  lemma AddMeta(e: Emitters, k: Key, row: Cells, columns: map<string, string>)
    requires RowOk(e, k, row) && (AssetMetaPayload, PAYLOAD_ID) !in row && PAYLOAD_ID in columns
    ensures var cells := InFamily(AssetMetaPayload, columns);
      cells.Keys !! row.Keys && RowOk(e, k, row + cells)
  {
    var cells := InFamily(AssetMetaPayload, columns);
    forall c <- row ensures c !in cells {
      assert GuardOf(c.0) in row;
    }
    forall c <- row + cells ensures GuardOf(c.0) in row + cells {
      if c in row { assert GuardOf(c.0) in row; }
    }
  }

  lemma AddNft(e: Emitters, k: Key, row: Cells, columns: map<string, string>, receiver: string)
    requires RowOk(e, k, row) && !IsTokenBridge(e, k) && (NftPayload, PAYLOAD_ID) !in row && PAYLOAD_ID in columns
    ensures var cells := InFamily(NftPayload, columns)[RECEIVER := receiver];
      cells.Keys !! row.Keys && RowOk(e, k, row + cells)
  {
    var cells := InFamily(NftPayload, columns)[RECEIVER := receiver];
    assert RECEIVER !in row;
    forall c <- row ensures c !in cells {
      assert GuardOf(c.0) in row;
    }
    forall c <- row + cells ensures GuardOf(c.0) in row + cells {
      if c in row { assert GuardOf(c.0) in row; }
    }
  }

  lemma AddDetails(e: Emitters, k: Key, row: Cells, d: Details)
    requires RowOk(e, k, row) && (TransferPayload, PAYLOAD_ID) in row && (TransferDetails, AMOUNT) !in row
    ensures var cells := InFamily(TransferDetails, DetailColumns(row, d));
      cells.Keys !! row.Keys && RowOk(e, k, row + cells)
  {
    var columns := DetailColumns(row, d);
    var cells := InFamily(TransferDetails, columns);
    assert AMOUNT != DECIMALS by { assert AMOUNT[0] != DECIMALS[0]; }
    forall c <- row ensures c !in cells {
      assert GuardOf(c.0) in row;
    }
    forall c <- row + cells ensures GuardOf(c.0) in row + cells {
      if c in row { assert GuardOf(c.0) in row; }
    }
  }

  lemma VaaKeeps(e: Emitters, s: State, m: Message, w: World)
    requires Inv(e, s)
    ensures Inv(e, ProcessVaa(e, s, m, w)) && Grows(s, ProcessVaa(e, s, m, w))
  {
    var k, row := m.key, CellsOf(s, MakeRowKey(m.key));
    assert RowOk(e, k, row);
    if m.payload == [] {
    } else if IsTokenBridge(e, k) {
      if m.payload[0] == 1 {
        if Decoded(m.payload).Ok? && w.receiver.Some? { TransferKeeps(e, s, m, w); }
      } else if m.payload[0] == 2 && w.meta.Some? {
        var columns := w.meta.value[PAYLOAD_ID := Decimal(m.payload[0])];
        if (AssetMetaPayload, PAYLOAD_ID) !in row { AddMeta(e, k, row, columns); }
        GuardedKeeps(e, s, k, (AssetMetaPayload, PAYLOAD_ID), InFamily(AssetMetaPayload, columns));
      }
    } else if ToHex(k.address) in e.nfts && m.payload[0] == 1 && w.nft.Some? && w.receiver.Some? {
      var columns := w.nft.value[PAYLOAD_ID := Decimal(m.payload[0])];
      if (NftPayload, PAYLOAD_ID) !in row { AddNft(e, k, row, columns, w.receiver.value); }
      GuardedKeeps(e, s, k, (NftPayload, PAYLOAD_ID), InFamily(NftPayload, columns)[RECEIVER := w.receiver.value]);
    }
  }

  lemma TransferKeeps(e: Emitters, s: State, m: Message, w: World)
    requires Inv(e, s) && m.payload != [] && m.payload[0] == 1 && IsTokenBridge(e, m.key)
    requires Decoded(m.payload).Ok? && w.receiver.Some?
    ensures Inv(e, ProcessVaa(e, s, m, w)) && Grows(s, ProcessVaa(e, s, m, w))
  {
    var columns := TransferColumns(Decoded(m.payload).value, w.rawAmount);
    var cells := InFamily(TransferPayload, columns)[RECEIVER := w.receiver.value];
    TransferGuarded(e, s, m.key, columns, w.receiver.value);
    Publishing(e, s, Guarded(s, MakeRowKey(m.key), (TransferPayload, PAYLOAD_ID), cells), m);
  }

  lemma TransferGuarded(e: Emitters, s: State, k: Key, columns: map<string, string>, receiver: string)
    requires Inv(e, s) && IsTokenBridge(e, k) && PAYLOAD_ID in columns && AMOUNT in columns
    ensures var s' := Guarded(s, MakeRowKey(k), (TransferPayload, PAYLOAD_ID),
                              InFamily(TransferPayload, columns)[RECEIVER := receiver]);
      Inv(e, s') && Grows(s, s') && (TransferPayload, PAYLOAD_ID) in CellsOf(s', MakeRowKey(k))
  {
    var row := CellsOf(s, MakeRowKey(k));
    var cells := InFamily(TransferPayload, columns)[RECEIVER := receiver];
    assert (TransferPayload, PAYLOAD_ID) !in row ==> cells.Keys !! row.Keys && RowOk(e, k, row + cells) by {
      if (TransferPayload, PAYLOAD_ID) !in row {
        assert RowOk(e, k, row);
        AddTransfer(e, k, row, columns, receiver);
      }
    }
    GuardedKeeps(e, s, k, (TransferPayload, PAYLOAD_ID), cells);
  }

  lemma Publishing(e: Emitters, s: State, s': State, m: Message)
    requires PublishedOk(s) && Inv(e, s') && Grows(s, s')
    requires (TransferPayload, PAYLOAD_ID) in CellsOf(s', MakeRowKey(m.key))
    ensures Inv(e, s'.(published := s.published + {m})) && Grows(s, s'.(published := s.published + {m}))
  {
    var t := s'.(published := s.published + {m});
    assert forall row :: CellsOf(t, row) == CellsOf(s', row);
    forall k: Key ensures RowOk(e, k, CellsOf(t, MakeRowKey(k))) {
      assert RowOk(e, k, CellsOf(s', MakeRowKey(k)));
    }
  }

  lemma DetailsKeep(e: Emitters, s: State, m: Message, details: Option<Details>)
    requires Inv(e, s)
    ensures Inv(e, ProcessTransfer(s, m, details)) && Grows(s, ProcessTransfer(s, m, details))
  {
    if m in s.published && details.Some? {
      DetailsGuarded(e, s, m.key, details.value);
    }
  }

  lemma DetailsGuarded(e: Emitters, s: State, k: Key, d: Details)
    requires Inv(e, s) && (TransferPayload, PAYLOAD_ID) in CellsOf(s, MakeRowKey(k))
    ensures var s' := Guarded(s, MakeRowKey(k), (TransferDetails, AMOUNT),
                              InFamily(TransferDetails, DetailColumns(CellsOf(s, MakeRowKey(k)), d)));
      Inv(e, s') && Grows(s, s')
  {
    var row := CellsOf(s, MakeRowKey(k));
    var cells := InFamily(TransferDetails, DetailColumns(row, d));
    assert (TransferDetails, AMOUNT) !in row ==> cells.Keys !! row.Keys && RowOk(e, k, row + cells) by {
      if (TransferDetails, AMOUNT) !in row {
        assert RowOk(e, k, row);
        AddDetails(e, k, row, d);
      }
    }
    GuardedKeeps(e, s, k, (TransferDetails, AMOUNT), cells);
  }

  lemma {:induction false} RunKeeps(e: Emitters, run: seq<Action>)
    ensures Inv(e, Run(e, START, run))
  {
    if run != [] {
      RunKeeps(e, run[..|run| - 1]);
      StepKeeps(e, Run(e, START, run[..|run| - 1]), run[|run| - 1]);
    }
  }

  lemma StepKeeps(e: Emitters, s: State, a: Action)
    requires Inv(e, s)
    ensures Inv(e, Step(e, s, a)) && Grows(s, Step(e, s, a))
  {
    match a
    case DeliverVaa(m, w) => VaaKeeps(e, s, m, w);
    case DeliverTransfer(m, d) => DetailsKeep(e, s, m, d);
  }

  // ----- over whole runs -----

  /** Some applied write put the cell there. */
  ghost predicate Logged(s: State, row: string, c: Cell) {
    exists i :: 0 <= i < |s.log| && s.log[i].row == row && c in s.log[i].cells
  }

  ghost predicate AllLogged(s: State) {
    forall row, c :: c in CellsOf(s, row) ==> Logged(s, row, c)
  }

  lemma GuardedLogged(s: State, row: string, guard: Cell, cells: Cells)
    requires AllLogged(s)
    ensures AllLogged(Guarded(s, row, guard, cells))
  {
    var s' := Guarded(s, row, guard, cells);
    if s' != s {
      forall r, c | c in CellsOf(s', r) ensures Logged(s', r, c) {
        if c in CellsOf(s, r) {
          var i :| 0 <= i < |s.log| && s.log[i].row == r && c in s.log[i].cells;
          assert s'.log[i] == s.log[i];
        } else {
          assert s'.log[|s.log|] == Write(row, cells);
        }
      }
    }
  }

  lemma StepLogged(e: Emitters, s: State, a: Action)
    requires AllLogged(s)
    ensures AllLogged(Step(e, s, a))
  {
    var row := MakeRowKey(a.m.key);
    if a.DeliverTransfer? {
      if a.m in s.published && a.details.Some? {
        GuardedLogged(s, row, (TransferDetails, AMOUNT), InFamily(TransferDetails, DetailColumns(CellsOf(s, row), a.details.value)));
      }
    } else if a.m.payload != [] {
      VaaLogged(e, s, a.m, a.world);
    }
  }

  lemma VaaLogged(e: Emitters, s: State, m: Message, w: World)
    requires AllLogged(s) && m.payload != []
    ensures AllLogged(ProcessVaa(e, s, m, w))
  {
    var row := MakeRowKey(m.key);
    if IsTokenBridge(e, m.key) {
      if m.payload[0] == 1 {
        if Decoded(m.payload).Ok? && w.receiver.Some? {
          var cells := InFamily(TransferPayload, TransferColumns(Decoded(m.payload).value, w.rawAmount))[RECEIVER := w.receiver.value];
          GuardedLogged(s, row, (TransferPayload, PAYLOAD_ID), cells);
          SameLog(Guarded(s, row, (TransferPayload, PAYLOAD_ID), cells), ProcessVaa(e, s, m, w));
        }
      } else if m.payload[0] == 2 && w.meta.Some? {
        GuardedLogged(s, row, (AssetMetaPayload, PAYLOAD_ID),
                      InFamily(AssetMetaPayload, w.meta.value[PAYLOAD_ID := Decimal(m.payload[0])]));
      }
    } else if ToHex(m.key.address) in e.nfts && m.payload[0] == 1 && w.nft.Some? && w.receiver.Some? {
      GuardedLogged(s, row, (NftPayload, PAYLOAD_ID),
                    InFamily(NftPayload, w.nft.value[PAYLOAD_ID := Decimal(m.payload[0])])[RECEIVER := w.receiver.value]);
    }
  }

  lemma SameLog(s: State, s': State)
    requires AllLogged(s) && s'.rows == s.rows && s'.log == s.log
    ensures AllLogged(s')
  {
    forall r, c | c in CellsOf(s', r) ensures Logged(s', r, c) {
      assert c in CellsOf(s, r) && Logged(s, r, c);
    }
  }

  /** In every run, every cell there is was put there by a write of the log. */
  lemma {:induction false} EveryCellLogged(e: Emitters, run: seq<Action>)
    ensures AllLogged(Run(e, START, run))
  {
    if run != [] {
      EveryCellLogged(e, run[..|run| - 1]);
      StepLogged(e, Run(e, START, run[..|run| - 1]), run[|run| - 1]);
    }
  }

  /** However messages are duplicated and reordered, a cell once written never changes. */
  lemma {:induction false} CellsNeverChange(e: Emitters, run: seq<Action>, more: seq<Action>)
    ensures Grows(Run(e, START, run), Run(e, START, run + more))
  {
    if more == [] {
      assert run + more == run;
    } else {
      var n := |more| - 1;
      assert (run + more)[..|run + more| - 1] == run + more[..n];
      CellsNeverChange(e, run, more[..n]);
      RunKeeps(e, run + more[..n]);
      var s := Run(e, START, run + more[..n]);
      StepKeeps(e, s, more[n]);
      GrowsTransitive(Run(e, START, run), s, Step(e, s, more[n]));
    }
  }

  lemma GrowsTransitive(s: State, s': State, s'': State)
    requires Grows(s, s') && Grows(s', s'')
    ensures Grows(s, s'')
  {
  }

  /** In every run, no cell of a row is written twice. In particular a row's receiver address
      is written at most once. */
  lemma EveryCellWrittenOnce(e: Emitters, run: seq<Action>, i: nat, j: nat, c: Cell)
    requires var log := Run(e, START, run).log;
      i < |log| && j < |log| && log[i].row == log[j].row && c in log[i].cells && c in log[j].cells
    ensures i == j
  {
    RunKeeps(e, run);
  }
}
