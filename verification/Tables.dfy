/** Two-level tables (chain, then symbol or address, to amount) as the Go code keeps them:
    reading a missing key gives zero, writing through a missing inner map is an error. */
module Tables {
  import opened Transfers
  import opened DaySums

  type Inner = map<string, real>
  type Table = map<string, Inner>

  /** A chain with nothing transferred to it. */
  const BLANK: Inner := map[ANY := 0.0]
  const EMPTY_TO: Table := map[ANY := BLANK]

  function Get(m: Inner, s: string): real {
    if s in m then m[s] else 0.0
  }

  function Look(t: Table, c: string, s: string): real {
    if c in t then Get(t[c], s) else 0.0
  }

  /** An inner map that reads as zero everywhere. */
  ghost predicate ReadsZero(m: Inner) {
    forall s :: Get(m, s) == 0.0
  }

  /** Adds a missing chain, leaving existing ones alone. */
  function Ensure(t: Table, c: string, blank: Inner): Table {
    if c in t then t else t[c := blank]
  }

  /** `t[c][s] = t[c][s] + x`. */
  function Bump(t: Table, c: string, s: string, x: real): Table
    requires c in t
  {
    t[c := t[c][s := Get(t[c], s) + x]]
  }

  lemma LookBump(t: Table, c: string, s: string, x: real, c': string, s': string)
    requires c in t
    ensures Look(Bump(t, c, s, x), c', s') == Look(t, c', s') + (if c == c' && s == s' then x else 0.0)
  {
  }

  // ----- amounts transferred to each chain -----

  /** One row filed every possible way: by chain and symbol, each also under "*". */
  function ToStep(t: Table, r: Row): (u: Table)
    requires ANY in t
    ensures ANY in u
  {
    var t := Ensure(t, r.destination, BLANK);
    var t := Bump(t, r.destination, ANY, r.notional);
    var t := Bump(t, ANY, ANY, r.notional);
    var t := Bump(t, ANY, r.symbol, r.notional);
    Bump(t, r.destination, r.symbol, r.notional)
  }

  function ToTable(rows: seq<Row>): (t: Table)
    ensures ANY in t
  {
    if rows == [] then EMPTY_TO
    else ToStep(ToTable(rows[..|rows| - 1]), rows[|rows| - 1])
  }

  lemma {:induction false} ToTableMeaning(rows: seq<Row>, c: string, s: string)
    ensures Look(ToTable(rows), c, s) == Total(To(c, s), rows)
  {
    if rows != [] {
      ToTableMeaning(rows[..|rows| - 1], c, s);
      ToStepMeaning(ToTable(rows[..|rows| - 1]), rows[|rows| - 1], c, s);
    }
  }

  lemma ToStepMeaning(t: Table, r: Row, c: string, s: string)
    requires ANY in t
    ensures Look(ToStep(t, r), c, s) == Look(t, c, s) + Weight(To(c, s), r)
  {
    var t0 := Ensure(t, r.destination, BLANK);
    var t1 := Bump(t0, r.destination, ANY, r.notional);
    var t2 := Bump(t1, ANY, ANY, r.notional);
    var t3 := Bump(t2, ANY, r.symbol, r.notional);
    LookBump(t0, r.destination, ANY, r.notional, c, s);
    LookBump(t1, ANY, ANY, r.notional, c, s);
    LookBump(t2, ANY, r.symbol, r.notional, c, s);
    LookBump(t3, r.destination, r.symbol, r.notional, c, s);
  }

  /** A day names exactly the chains that something was sent to, and "*". */
  lemma {:induction false} ToTableNames(rows: seq<Row>, c: string)
    ensures c in ToTable(rows) <==> c == ANY || exists r <- rows :: r.destination == c
  {
    if rows != [] {
      var init, r := rows[..|rows| - 1], rows[|rows| - 1];
      ToTableNames(init, c);
      ToStepNames(ToTable(init), r, c);
      assert rows == init + [r];
    }
  }

  lemma ToStepNames(t: Table, r: Row, c: string)
    requires ANY in t
    ensures c in ToStep(t, r) <==> c in t || c == r.destination
  {
  }

  /** The daily worker's loop. */
  method AmountsOfDay(rows: seq<Row>) returns (t: Table)
    ensures t == ToTable(rows)
    ensures forall c, s :: Look(t, c, s) == Total(To(c, s), rows)
  {
    t := map[ANY := map[ANY := 0.0]];
    for i := 0 to |rows|
      invariant ANY in t
      invariant t == ToTable(rows[..i])
    {
      var row := rows[i];
      assert rows[..i + 1][..i] == rows[..i];
      if row.destination !in t {
        t := t[row.destination := map[ANY := 0.0]];
      }
      t := Bump(t, row.destination, ANY, row.notional);
      t := Bump(t, ANY, ANY, row.notional);
      t := Bump(t, ANY, row.symbol, row.notional);
      t := Bump(t, row.destination, row.symbol, row.notional);
    }
    assert rows[..|rows|] == rows;
    forall c, s ensures Look(t, c, s) == Total(To(c, s), rows) {
      ToTableMeaning(rows, c, s);
    }
  }

  /** The single-pass query, which files the rows in another order. */
  method TransfersToForInterval(rows: seq<Row>) returns (t: Table)
    ensures forall c, s :: Look(t, c, s) == Total(To(c, s), rows)
  {
    t := map[ANY := map[ANY := 0.0]];
    for i := 0 to |rows|
      invariant ANY in t
      invariant forall c, s :: Look(t, c, s) == Total(To(c, s), rows[..i])
    {
      assert rows[..i + 1][..i] == rows[..i];
      t := FileTransfer(t, rows[i]);
    }
    assert rows[..|rows|] == rows;
  }

  method FileTransfer(t: Table, row: Row) returns (u: Table)
    requires ANY in t
    ensures ANY in u
    ensures forall c, s :: Look(u, c, s) == Look(t, c, s) + Weight(To(c, s), row)
  {
    u := t;
    if row.destination !in u {
      u := u[row.destination := map[ANY := 0.0]];
    }
    ghost var t0 := u;
    u := Bump(u, row.destination, ANY, row.notional);
    ghost var t1 := u;
    u := Bump(u, ANY, row.symbol, row.notional);
    ghost var t2 := u;
    u := Bump(u, row.destination, row.symbol, row.notional);
    ghost var t3 := u;
    u := Bump(u, ANY, ANY, row.notional);
    forall c, s ensures Look(u, c, s) == Look(t, c, s) + Weight(To(c, s), row) {
      LookBump(t0, row.destination, ANY, row.notional, c, s);
      LookBump(t1, ANY, row.symbol, row.notional, c, s);
      LookBump(t2, row.destination, row.symbol, row.notional, c, s);
      LookBump(t3, ANY, ANY, row.notional, c, s);
    }
  }

  // ----- amounts received by each address -----

  function AddressTable(rows: seq<Row>): Table {
    if rows == [] then map[]
    else
      var r := rows[|rows| - 1];
      Bump(Ensure(AddressTable(rows[..|rows| - 1]), r.destination, map[]),
           r.destination, r.destinationAddress, r.notional)
  }

  lemma {:induction false} AddressTableMeaning(rows: seq<Row>, c: string, a: string)
    ensures Look(AddressTable(rows), c, a) == Total(Address(c, a), rows)
  {
    if rows != [] {
      AddressTableMeaning(rows[..|rows| - 1], c, a);
    }
  }

  /** The table names the address under the chain. */
  predicate Named(t: Table, c: string, a: string) {
    c in t && a in t[c]
  }

  predicate Received(rows: seq<Row>, c: string, a: string) {
    exists r <- rows :: r.destination == c && r.destinationAddress == a
  }

  /** A day names exactly the addresses that received something, whatever its value, so their
      number is the count that is answered by default. */
  lemma {:induction false} AddressTableNames(rows: seq<Row>, c: string, a: string)
    ensures Named(AddressTable(rows), c, a) <==> Received(rows, c, a)
  {
    if rows != [] {
      var init, r := rows[..|rows| - 1], rows[|rows| - 1];
      AddressTableNames(init, c, a);
      assert rows == init + [r];
      assert Received(rows, c, a) <==> Received(init, c, a) || (r.destination == c && r.destinationAddress == a);
    }
  }

  method AddressesForInterval(rows: seq<Row>) returns (t: Table)
    ensures t == AddressTable(rows)
    ensures forall c, a :: Look(t, c, a) == Total(Address(c, a), rows)
  {
    t := map[];
    for i := 0 to |rows|
      invariant t == AddressTable(rows[..i])
    {
      var row := rows[i];
      assert rows[..i + 1][..i] == rows[..i];
      if row.destination !in t {
        t := t[row.destination := map[]];
      }
      t := Bump(t, row.destination, row.destinationAddress, row.notional);
    }
    assert rows[..|rows|] == rows;
    forall c, a ensures Look(t, c, a) == Total(Address(c, a), rows) {
      AddressTableMeaning(rows, c, a);
    }
  }

  // ----- adding up days -----

  /** One cell of every day. */
  function Cells(days: map<nat, Table>, c: string, s: string): Column {
    map d | d in days :: Look(days[d], c, s)
  }

  lemma CellsAdd(days: map<nat, Table>, d: nat, t: Table, c: string, s: string, hi: nat)
    requires d !in days && d < hi
    ensures Before(Cells(days[d := t], c, s), hi) == Before(Cells(days, c, s), hi) + Look(t, c, s)
  {
    BeforeUpdate(Cells(days, c, s), d, Look(t, c, s), hi);
    assert Cells(days[d := t], c, s) == Cells(days, c, s)[d := Look(t, c, s)];
  }

  /** Table `t` has all the keys of `u`. */
  predicate Names(t: Table, u: Table) {
    forall c <- u :: c in t && u[c].Keys <= t[c].Keys
  }

  /** Adds one chain's tokens into the result, in any order. */
  method AddTokens(result: Table, c: string, tokens: Inner) returns (r: Table)
    requires c in result
    ensures r.Keys == result.Keys
    ensures forall k, s :: Look(r, k, s) == Look(result, k, s) + (if k == c then Get(tokens, s) else 0.0)
    ensures result[c].Keys + tokens.Keys <= r[c].Keys
    ensures forall k <- r :: k != c ==> r[k] == result[k]
  {
    r := result;
    var todo := tokens.Keys;
    while todo != {}
      invariant todo <= tokens.Keys && r.Keys == result.Keys
      invariant forall k, s ::
          Look(r, k, s) == Look(result, k, s) + (if k == c && s in tokens && s !in todo then tokens[s] else 0.0)
      invariant forall k <- r :: k != c ==> r[k] == result[k]
      invariant result[c].Keys + (tokens.Keys - todo) <= r[c].Keys
    {
      var symbol :| symbol in todo;
      todo := todo - {symbol};
      if symbol !in r[c] {
        r := r[c := r[c][symbol := 0.0]];
      }
      r := Bump(r, c, symbol, tokens[symbol]);
    }
  }

  /** Adds one day into the result, visiting its chains in any order. */
  method AddDay(result: Table, day: Table, blank: Inner) returns (r: Table)
    requires ReadsZero(blank)
    ensures r.Keys == result.Keys + day.Keys
    ensures forall c, s :: Look(r, c, s) == Look(result, c, s) + Look(day, c, s)
    ensures Names(r, result) && Names(r, day)
  {
    r := result;
    var todo := day.Keys;
    while todo != {}
      invariant todo <= day.Keys
      invariant r.Keys == result.Keys + (day.Keys - todo)
      invariant forall c, s ::
          Look(r, c, s) == Look(result, c, s) + (if c in todo then 0.0 else Look(day, c, s))
      invariant forall c <- result :: result[c].Keys <= r[c].Keys
      invariant forall c <- day :: c !in todo ==> day[c].Keys <= r[c].Keys
    {
      var chain :| chain in todo;
      r := AddChain(r, chain, day[chain], blank);
      todo := todo - {chain};
    }
  }

  /** Adds one chain's tokens, creating the chain if need be. */
  method AddChain(result: Table, c: string, tokens: Inner, blank: Inner) returns (r: Table)
    requires ReadsZero(blank)
    ensures r.Keys == result.Keys + {c}
    ensures forall k, s :: Look(r, k, s) == Look(result, k, s) + (if k == c then Get(tokens, s) else 0.0)
    ensures forall k <- result :: result[k].Keys <= r[k].Keys
    ensures tokens.Keys <= r[c].Keys
  {
    r := result;
    if c !in r {
      r := r[c := blank];
    }
    assert forall k, s :: Look(r, k, s) == Look(result, k, s);
    r := AddTokens(r, c, tokens);
  }

  /** Adds days into a table, in any order. */
  method AddDays(result: Table, days: map<nat, Table>, today: nat, blank: Inner) returns (r: Table)
    requires ReadsZero(blank) && forall d <- days :: d <= today
    ensures forall c, s :: Look(r, c, s) == Look(result, c, s) + Before(Cells(days, c, s), today + 1)
    ensures Names(r, result) && forall d <- days :: Names(r, days[d])
    ensures forall c <- r :: c in result || exists d :: d in days && c in days[d]
  {
    r := result;
    var todo := days.Keys;
    ghost var done: map<nat, Table> := map[];
    forall c, s ensures Before(Cells(done, c, s), today + 1) == 0.0 {
      assert Cells(done, c, s) == map[];
      BeforeEmpty(today + 1);
    }
    while todo != {}
      invariant todo <= days.Keys
      invariant done.Keys == days.Keys - todo && forall d <- done :: done[d] == days[d]
      invariant forall c, s :: Look(r, c, s) == Look(result, c, s) + Before(Cells(done, c, s), today + 1)
      invariant Names(r, result) && forall d <- done :: Names(r, days[d])
      invariant forall c <- r :: c in result || exists d :: d in done && c in days[d]
    {
      var date :| date in todo;
      todo := todo - {date};
      ghost var before := r;
      r := AddDay(r, days[date], blank);
      forall c, s
        ensures Before(Cells(done[date := days[date]], c, s), today + 1)
             == Before(Cells(done, c, s), today + 1) + Look(days[date], c, s)
      {
        CellsAdd(done, date, days[date], c, s, today + 1);
      }
      forall d <- done ensures Names(r, days[d]) {
        NamesTransitive(r, before, days[d]);
      }
      NamesTransitive(r, before, result);
      forall c <- r ensures c in result || exists d :: d in done[date := days[date]] && c in days[d] {
        if c !in before { assert date in done[date := days[date]] && c in days[date]; }
      }
      done := done[date := days[date]];
    }
    assert done == days;
  }

  lemma NamesTransitive(t: Table, u: Table, v: Table)
    requires Names(t, u) && Names(u, v)
    ensures Names(t, v)
  {
  }

  /** The total over a period, adding the days in any order. */
  method TransferredToSinceDate(days: map<nat, Table>, today: nat, start: Table, blank: Inner)
    returns (result: Table)
    requires ReadsZero(blank) && forall c, s :: Look(start, c, s) == 0.0
    requires forall d <- days :: d <= today
    ensures forall c, s :: Look(result, c, s) == Before(Cells(days, c, s), today + 1)
    ensures forall c :: c in result <==> c in start || exists d :: d in days && c in days[d]
  {
    result := AddDays(start, days, today, blank);
    forall c | c in start || exists d :: d in days && c in days[d] ensures c in result {
      if c !in start {
        var d :| d in days && c in days[d];
        assert Names(result, days[d]);
      }
    }
  }

  /** The period total equals one pass over the period's rows, however the rows fall on
      days and whatever tables present the days, as long as these read right. */
  lemma PeriodEqualsOnePass(rows: seq<Row>, day: seq<nat>, days: map<nat, Table>, today: nat, c: string, s: string)
    requires |rows| == |day| && forall i :: 0 <= i < |day| ==> day[i] <= today
    requires forall d: nat :: d in days <==> d <= today
    requires forall d: nat :: d <= today ==> Look(days[d], c, s) == Total(To(c, s), OnDay(rows, day, d))
    ensures Before(Cells(days, c, s), today + 1) == Total(To(c, s), rows)
  {
    SplitIntoDays(To(c, s), rows, day, today + 1);
    BeforeAgree(Cells(days, c, s), DayTotals(To(c, s), rows, day, today + 1), today + 1);
  }
}
