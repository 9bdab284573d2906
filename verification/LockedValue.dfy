/** Value locked on each chain: the daily balances, their sum over all days and their
    running total. */
module LockedValue {
  import opened Options
  import opened Transfers
  import opened DaySums

  datatype LockedAsset = LockedAsset(
    symbol: string, name: string, address: string, coinGeckoId: string,
    amount: real, notional: real, price: real)

  const NO_ASSET := LockedAsset("", "", "", "", 0.0, 0.0, 0.0)

  type Assets = map<string, LockedAsset>
  type LockedTable = map<string, Assets>

  function AmountIn(m: Assets, a: string): real {
    if a in m then m[a].amount else 0.0
  }

  function AmountAt(t: LockedTable, c: string, a: string): real {
    if c in t then AmountIn(t[c], a) else 0.0
  }

  /** What a table says about a token besides its amount, if it lists it: symbol, name,
      address, id and price. */
  function RecordAt(t: LockedTable, c: string, a: string): Option<LockedAsset> {
    if c in t && a in t[c] then Some(t[c][a].(amount := 0.0, notional := 0.0)) else None
  }

  // ----- one day -----

  function NewAsset(r: Row): LockedAsset {
    LockedAsset(r.symbol, r.name, r.tokenAddress, r.coinGeckoId, 0.0, 0.0, r.price)
  }

  function LockedStep(t: LockedTable, r: Row, skip: set<string>): LockedTable {
    if !Kept(r, skip) then t
    else
      var assets := if r.origin in t then t[r.origin] else map[];
      var asset := if r.tokenAddress in assets then assets[r.tokenAddress] else NewAsset(r);
      t[r.origin := assets[r.tokenAddress := asset.(amount := asset.amount + Change(r))]]
  }

  function LockedOf(rows: seq<Row>, skip: set<string>): LockedTable {
    if rows == [] then map[]
    else LockedStep(LockedOf(rows[..|rows| - 1], skip), rows[|rows| - 1], skip)
  }

  /** A day's balance is the signed sum over the rows that count. */
  lemma {:induction false} LockedMeaning(rows: seq<Row>, skip: set<string>, c: string, a: string)
    ensures AmountAt(LockedOf(rows, skip), c, a) == Total(Locked(c, a, skip), rows)
  {
    if rows != [] {
      LockedMeaning(rows[..|rows| - 1], skip, c, a);
    }
  }

  /** Row `i` is the first one of the token. */
  ghost predicate IsFirst(rows: seq<Row>, i: nat, c: string, a: string, skip: set<string>) {
    i < |rows| && OfToken(rows[i], c, a, skip) && forall j :: 0 <= j < i ==> !OfToken(rows[j], c, a, skip)
  }

  /** A day lists exactly the tokens that some row is of, each with symbol, name, id and price
      of its first row. */
  lemma {:induction false} LockedRecords(rows: seq<Row>, skip: set<string>, c: string, a: string)
    ensures RecordAt(LockedOf(rows, skip), c, a).Some? <==> exists i: nat :: i < |rows| && OfToken(rows[i], c, a, skip)
    ensures forall i: nat :: IsFirst(rows, i, c, a, skip) ==>
              RecordAt(LockedOf(rows, skip), c, a)
              == Some(LockedAsset(rows[i].symbol, rows[i].name, a, rows[i].coinGeckoId, 0.0, 0.0, rows[i].price))
  {
    if rows != [] {
      var n := |rows| - 1;
      LockedRecords(rows[..n], skip, c, a);
      LockedRecordStep(LockedOf(rows[..n], skip), rows[n], skip, c, a);
      assert forall i: nat :: i < n ==> rows[..n][i] == rows[i];
      if exists i: nat :: i < n && OfToken(rows[i], c, a, skip) {
        var i: nat :| i < n && OfToken(rows[i], c, a, skip);
        assert OfToken(rows[..n][i], c, a, skip);
        assert forall j: nat :: IsFirst(rows, j, c, a, skip) ==> IsFirst(rows[..n], j, c, a, skip);
      }
    }
  }

  lemma LockedRecordStep(t: LockedTable, r: Row, skip: set<string>, c: string, a: string)
    ensures RecordAt(LockedStep(t, r, skip), c, a)
         == if RecordAt(t, c, a).None? && OfToken(r, c, a, skip)
            then Some(LockedAsset(r.symbol, r.name, a, r.coinGeckoId, 0.0, 0.0, r.price))
            else RecordAt(t, c, a)
  {
  }

  method LockedOfDay(rows: seq<Row>, skip: set<string>) returns (t: LockedTable)
    ensures t == LockedOf(rows, skip)
    ensures forall c, a :: AmountAt(t, c, a) == Total(Locked(c, a, skip), rows)
    ensures forall c, a, i: nat :: IsFirst(rows, i, c, a, skip) ==>
              RecordAt(t, c, a) == Some(LockedAsset(rows[i].symbol, rows[i].name, a, rows[i].coinGeckoId, 0.0, 0.0, rows[i].price))
  {
    t := map[];
    for i := 0 to |rows|
      invariant t == LockedOf(rows[..i], skip)
    {
      assert rows[..i + 1][..i] == rows[..i];
      t := LockRow(t, rows[i], skip);
    }
    assert rows[..|rows|] == rows;
    forall c, a ensures AmountAt(t, c, a) == Total(Locked(c, a, skip), rows) {
      LockedMeaning(rows, skip, c, a);
    }
    forall c, a, i: nat | IsFirst(rows, i, c, a, skip)
      ensures RecordAt(t, c, a) == Some(LockedAsset(rows[i].symbol, rows[i].name, a, rows[i].coinGeckoId, 0.0, 0.0, rows[i].price))
    {
      LockedRecords(rows, skip, c, a);
    }
  }

  /** The loop body: skips rows without price, address or with an excluded token. */
  method LockRow(t: LockedTable, row: Row, skip: set<string>) returns (u: LockedTable)
    ensures u == LockedStep(t, row, skip)
  {
    u := t;
    if row.coinGeckoId == "" {
      return;
    }
    if row.tokenAddress in skip {
      return;
    }
    if row.tokenAddress == "" {
      return;
    }
    if row.origin !in u {
      u := u[row.origin := map[]];
    }
    if row.tokenAddress !in u[row.origin] {
      u := u[row.origin := u[row.origin][row.tokenAddress :=
        LockedAsset(row.symbol, row.name, row.tokenAddress, row.coinGeckoId, 0.0, 0.0, row.price)]];
    }
    var amountChange := 0.0;
    if row.origin == row.leaving {
      amountChange := row.tokenAmount;
    }
    if row.origin == row.destination {
      amountChange := row.tokenAmount * -1.0;
    }
    var prev := u[row.origin][row.tokenAddress];
    u := u[row.origin := u[row.origin][row.tokenAddress := prev.(amount := prev.amount + amountChange)]];
    var assets := if row.origin in t then t[row.origin] else map[];
    assert u[row.origin] == assets[row.tokenAddress := prev.(amount := prev.amount + amountChange)];
  }

  // ----- first route: the sum of all days -----

  function Balances(days: map<nat, LockedTable>, c: string, a: string): Column {
    map d | d in days :: AmountAt(days[d], c, a)
  }

  lemma BalancesAdd(days: map<nat, LockedTable>, d: nat, t: LockedTable, c: string, a: string, hi: nat)
    requires d !in days && d < hi
    ensures Before(Balances(days[d := t], c, a), hi) == Before(Balances(days, c, a), hi) + AmountAt(t, c, a)
  {
    BeforeUpdate(Balances(days, c, a), d, AmountAt(t, c, a), hi);
    assert Balances(days[d := t], c, a) == Balances(days, c, a)[d := AmountAt(t, c, a)];
  }

  /** An asset raised by a day's amount, or the day's own if it is new. */
  function Added(result: Assets, tokens: Assets, a: string): LockedAsset
    requires a in tokens
  {
    if a in result then result[a].(amount := result[a].amount + tokens[a].amount) else tokens[a].(notional := 0.0)
  }

  method AddAssets(result: Assets, tokens: Assets) returns (r: Assets)
    ensures r.Keys == result.Keys + tokens.Keys
    ensures forall a <- r :: r[a] == if a in tokens then Added(result, tokens, a) else result[a]
    ensures forall a :: AmountIn(r, a) == AmountIn(result, a) + AmountIn(tokens, a)
  {
    r := result;
    var todo := tokens.Keys;
    while todo != {}
      invariant todo <= tokens.Keys && r.Keys == result.Keys + (tokens.Keys - todo)
      invariant forall a <- r :: r[a] == if a in tokens && a !in todo then Added(result, tokens, a) else result[a]
    {
      var address :| address in todo;
      todo := todo - {address};
      var locked := tokens[address];
      if address in r {
        var asset := r[address];
        r := r[address := asset.(amount := asset.amount + locked.amount)];
      } else {
        r := r[address := locked.(notional := 0.0)];
      }
    }
  }

  /** One chain of a table, raised by a day's tokens. */
  function RaisedChain(result: LockedTable, day: LockedTable, c: string): Assets
    requires c in day
  {
    var old_ := if c in result then result[c] else map[];
    map a | a in old_.Keys + day[c].Keys :: if a in day[c] then Added(old_, day[c], a) else old_[a]
  }

  method AddLockedDay(result: LockedTable, day: LockedTable) returns (r: LockedTable)
    ensures r.Keys == result.Keys + day.Keys
    ensures forall c <- r :: r[c] == if c in day then RaisedChain(result, day, c) else result[c]
  {
    r := result;
    var todo := day.Keys;
    while todo != {}
      invariant todo <= day.Keys && r.Keys == result.Keys + (day.Keys - todo)
      invariant forall c <- r :: r[c] == if c in day && c !in todo then RaisedChain(result, day, c) else result[c]
    {
      var chain :| chain in todo;
      todo := todo - {chain};
      var assets := AddAssets(if chain in r then r[chain] else map[], day[chain]);
      assert assets == RaisedChain(result, day, chain);
      r := r[chain := assets];
    }
  }

  /** Amounts add up; a token that is already there keeps its record. */
  lemma RaisedMeans(result: LockedTable, day: LockedTable, r: LockedTable, c: string, a: string)
    requires r.Keys == result.Keys + day.Keys
    requires forall c <- r :: r[c] == if c in day then RaisedChain(result, day, c) else result[c]
    ensures AmountAt(r, c, a) == AmountAt(result, c, a) + AmountAt(day, c, a)
    ensures RecordAt(r, c, a) == if RecordAt(result, c, a).Some? then RecordAt(result, c, a) else RecordAt(day, c, a)
  {
  }

  /** The record is one that some day gives the token, if any day lists it. */
  ghost predicate FromDays(days: map<nat, LockedTable>, c: string, a: string, record: Option<LockedAsset>) {
    if record.None? then forall d <- days :: RecordAt(days[d], c, a).None?
    else exists d :: d in days && RecordAt(days[d], c, a) == record
  }

  lemma FromMoreDays(days: map<nat, LockedTable>, d: nat, t: LockedTable, c: string, a: string, record: Option<LockedAsset>)
    requires d !in days && FromDays(days, c, a, record)
    ensures FromDays(days[d := t], c, a, if record.Some? then record else RecordAt(t, c, a))
  {
    if record.Some? {
      var e :| e in days && RecordAt(days[e], c, a) == record;
      assert RecordAt(days[d := t][e], c, a) == record;
    } else if RecordAt(t, c, a).Some? {
      assert RecordAt(days[d := t][d], c, a) == RecordAt(t, c, a);
    }
  }

  /** The table holds the sums of the days, and a record of each token. */
  ghost predicate SumsUp(result: LockedTable, days: map<nat, LockedTable>, today: nat) {
    forall c, a :: AmountAt(result, c, a) == Before(Balances(days, c, a), today + 1)
                   && FromDays(days, c, a, RecordAt(result, c, a))
  }

  lemma OneMoreDay(result: LockedTable, day: LockedTable, raised: LockedTable, done: map<nat, LockedTable>, date: nat, today: nat)
    requires SumsUp(result, done, today) && date !in done && date <= today
    requires raised.Keys == result.Keys + day.Keys
    requires forall c <- raised :: raised[c] == if c in day then RaisedChain(result, day, c) else result[c]
    ensures SumsUp(raised, done[date := day], today)
  {
    forall c, a
      ensures AmountAt(raised, c, a) == Before(Balances(done[date := day], c, a), today + 1)
      ensures FromDays(done[date := day], c, a, RecordAt(raised, c, a))
    {
      assert AmountAt(result, c, a) == Before(Balances(done, c, a), today + 1) && FromDays(done, c, a, RecordAt(result, c, a));
      RaisedMeans(result, day, raised, c, a);
      BalancesAdd(done, date, day, c, a, today + 1);
      FromMoreDays(done, date, day, c, a, RecordAt(result, c, a));
    }
  }

  /** Adds all days, in any order. */
  method TvlSinceDate(days: map<nat, LockedTable>, today: nat) returns (result: LockedTable)
    requires forall d <- days :: d <= today
    ensures forall c, a :: AmountAt(result, c, a) == Before(Balances(days, c, a), today + 1)
    ensures forall c, a :: FromDays(days, c, a, RecordAt(result, c, a))
  {
    result := map[];
    var todo := days.Keys;
    ghost var done: map<nat, LockedTable> := map[];
    forall c, a ensures Before(Balances(done, c, a), today + 1) == 0.0 {
      assert Balances(done, c, a) == map[];
      BeforeEmpty(today + 1);
    }
    while todo != {}
      invariant todo <= days.Keys
      invariant done.Keys == days.Keys - todo && forall d <- done :: done[d] == days[d]
      invariant SumsUp(result, done, today)
    {
      var date :| date in todo;
      todo := todo - {date};
      var raised := AddLockedDay(result, days[date]);
      OneMoreDay(result, days[date], raised, done, date, today);
      result := raised;
      done := done[date := days[date]];
    }
    assert done == days;
  }

  // ----- second route: the running total -----

  /** The record of the last day up to `d` on which the token was moved. */
  function LastRecord(days: map<nat, LockedTable>, d: nat, c: string, a: string): Option<LockedAsset> {
    if d in days && RecordAt(days[d], c, a).Some? then RecordAt(days[d], c, a)
    else if d == 0 then None
    else LastRecord(days, d - 1, c, a)
  }

  /** One chain: the previous total plus the day, over the union of the tokens; all else is
      the day's where it has the token. */
  function Merged(prev: Assets, day: Assets): Assets {
    map a | a in prev.Keys + day.Keys :: MergedAsset(prev, day, a)
  }

  function MergedAsset(prev: Assets, day: Assets, a: string): LockedAsset
    requires a in prev || a in day
  {
    (if a in day then day[a] else prev[a]).(amount := AmountIn(prev, a) + AmountIn(day, a), notional := 0.0)
  }

  method MergeAssets(prev: Assets, day: Assets) returns (m: Assets)
    ensures m == Merged(prev, day)
  {
    m := map[];
    var todo := prev.Keys + day.Keys;
    while todo != {}
      invariant todo <= prev.Keys + day.Keys && m.Keys == (prev.Keys + day.Keys) - todo
      invariant forall a <- m :: m[a] == MergedAsset(prev, day, a)
    {
      var symbol :| symbol in todo;
      todo := todo - {symbol};
      var asset := NO_ASSET;
      var prevDayAmount := 0.0;
      if symbol in prev {
        prevDayAmount := prev[symbol].amount;
        asset := prev[symbol];
      }
      var thisDayAmount := 0.0;
      if symbol in day {
        thisDayAmount := day[symbol].amount;
        asset := day[symbol];
      }
      m := m[symbol := asset.(amount := prevDayAmount + thisDayAmount, notional := 0.0)];
    }
  }

  /** What every table starts from. */
  const INITIAL: LockedTable := map[ANY := map[ANY := NO_ASSET]]

  function Assets0(t: LockedTable, c: string): Assets {
    if c in t then t[c] else map[]
  }

  /** The running total `prev` moved on by one day. Only the day's chains are visited: a
      chain missing from the day loses its history. */
  function Moved(prev: LockedTable, day: LockedTable): LockedTable {
    map c | c in INITIAL.Keys + day.Keys :: if c in day then MovedChain(prev, day, c) else INITIAL[c]
  }

  function MovedChain(prev: LockedTable, day: LockedTable, c: string): Assets {
    Assets0(INITIAL, c) + Merged(Assets0(prev, c), Assets0(day, c))
  }

  method AccumulateLocked(prev: LockedTable, day: LockedTable) returns (t: LockedTable)
    ensures t == Moved(prev, day)
  {
    t := map[ANY := map[ANY := NO_ASSET]];
    var todo := day.Keys;
    while todo != {}
      invariant todo <= day.Keys && t.Keys == INITIAL.Keys + (day.Keys - todo)
      invariant forall c <- t :: t[c] == if c in day && c !in todo then MovedChain(prev, day, c) else INITIAL[c]
    {
      var chain :| chain in todo;
      todo := todo - {chain};
      assert chain in t <==> chain in INITIAL;
      var assets := MoveChain(if chain in t then t[chain] else map[], prev, day, chain);
      t := t[chain := assets];
    }
    IsMoved(t, prev, day);
  }

  method MoveChain(base: Assets, prev: LockedTable, day: LockedTable, chain: string) returns (assets: Assets)
    requires chain in day && base == Assets0(INITIAL, chain)
    ensures assets == MovedChain(prev, day, chain)
  {
    var merged := MergeAssets(if chain in prev then prev[chain] else map[], day[chain]);
    assets := base + merged;
  }

  lemma IsMoved(t: LockedTable, prev: LockedTable, day: LockedTable)
    requires t.Keys == INITIAL.Keys + day.Keys
    requires forall c <- t :: t[c] == if c in day then MovedChain(prev, day, c) else INITIAL[c]
    ensures t == Moved(prev, day)
  {
  }

  /** What a running total moved on says: amounts add up, and records are the day's where it
      has the token. */
  ghost predicate MovedOn(t: LockedTable, prev: LockedTable, day: LockedTable) {
    (forall c, a :: AmountAt(t, c, a) == if c in day then AmountAt(prev, c, a) + AmountAt(day, c, a) else 0.0)
    && (forall c, a | c != ANY :: RecordAt(t, c, a) ==
          if c !in day then None else if a in day[c] then RecordAt(day, c, a) else RecordAt(prev, c, a))
  }

  lemma MovedMeaning(prev: LockedTable, day: LockedTable)
    ensures MovedOn(Moved(prev, day), prev, day)
  {
    var t := Moved(prev, day);
    forall c, a ensures AmountAt(t, c, a) == if c in day then AmountAt(prev, c, a) + AmountAt(day, c, a) else 0.0 {
      MovedAmount(prev, day, c, a);
    }
    forall c, a | c != ANY
      ensures RecordAt(t, c, a) == if c !in day then None else if a in day[c] then RecordAt(day, c, a) else RecordAt(prev, c, a)
    {
      MovedRecord(prev, day, c, a);
    }
  }

  lemma MovedAmount(prev: LockedTable, day: LockedTable, c: string, a: string)
    ensures AmountAt(Moved(prev, day), c, a) == if c in day then AmountAt(prev, c, a) + AmountAt(day, c, a) else 0.0
  {
    assert AmountIn(Assets0(INITIAL, c), a) == 0.0;
    if c in day {
      assert Moved(prev, day)[c] == MovedChain(prev, day, c);
    }
  }

  lemma MovedRecord(prev: LockedTable, day: LockedTable, c: string, a: string)
    requires c != ANY
    ensures RecordAt(Moved(prev, day), c, a)
         == if c !in day then None else if a in day[c] then RecordAt(day, c, a) else RecordAt(prev, c, a)
  {
    if c in day {
      assert Moved(prev, day)[c] == MovedChain(prev, day, c);
    }
  }

  /** A table copied over the initial one. */
  function Copied(t: LockedTable): LockedTable {
    INITIAL + t
  }

  /** Copies a table chain by chain. */
  method CopyLocked(t: LockedTable) returns (u: LockedTable)
    ensures u == Copied(t)
  {
    u := map[ANY := map[ANY := NO_ASSET]];
    var todo := t.Keys;
    while todo != {}
      invariant todo <= t.Keys && u.Keys == INITIAL.Keys + (t.Keys - todo)
      invariant forall c <- u :: u[c] == if c in t && c !in todo then t[c] else INITIAL[c]
    {
      var chain :| chain in todo;
      todo := todo - {chain};
      u := u[chain := t[chain]];
    }
  }

  lemma CopiedReads(t: LockedTable, c: string, a: string)
    ensures AmountAt(Copied(t), c, a) == AmountAt(t, c, a)
    ensures c != ANY ==> RecordAt(Copied(t), c, a) == RecordAt(t, c, a)
  {
  }

  /** A running total up to and including day `d`: every amount is the sum of the days, and
      every record, the price included, the one of the last day that moved the token. */
  ghost predicate RunsTo(t: LockedTable, days: map<nat, LockedTable>, d: nat) {
    (forall c, a :: AmountAt(t, c, a) == Before(Balances(days, c, a), d + 1))
    && (forall c, a | c != ANY :: RecordAt(t, c, a) == LastRecord(days, d, c, a))
  }

  lemma CopyRunsTo(t: LockedTable, days: map<nat, LockedTable>, d: nat)
    requires RunsTo(t, days, d)
    ensures RunsTo(Copied(t), days, d)
  {
    forall c, a
      ensures AmountAt(Copied(t), c, a) == Before(Balances(days, c, a), d + 1)
      ensures c != ANY ==> RecordAt(Copied(t), c, a) == LastRecord(days, d, c, a)
    {
      CopiedReads(t, c, a);
    }
  }

  /** A chain that day `d` does not name has no token on any day. */
  ghost predicate NamesAll(days: map<nat, LockedTable>, d: nat)
    requires d in days
  {
    forall e <- days, c | c !in days[d] && c in days[e] :: days[e][c] == map[]
  }

  /** Every day names every chain that has something on any day: the daily function's
      padding. */
  ghost predicate Padded(days: map<nat, LockedTable>) {
    forall d {:trigger NamesAll(days, d)} :: d in days ==> NamesAll(days, d)
  }

  lemma {:induction false} NeverListed(days: map<nat, LockedTable>, c: string, a: string, d: nat)
    requires forall e: nat :: e <= d && e in days ==> RecordAt(days[e], c, a).None?
    ensures LastRecord(days, d, c, a).None?
  {
    if d > 0 { NeverListed(days, c, a, d - 1); }
  }

  lemma {:induction false} AbsentEverywhere(days: map<nat, LockedTable>, c: string, a: string, hi: nat)
    requires forall d <- days :: AmountAt(days[d], c, a) == 0.0
    ensures Before(Balances(days, c, a), hi) == 0.0
  {
    if hi > 0 { AbsentEverywhere(days, c, a, hi - 1); }
  }

  lemma CarriesForward(days: map<nat, LockedTable>, d: nat, prev: LockedTable, t: LockedTable)
    requires Padded(days) && d > 0 && d in days && RunsTo(prev, days, d - 1) && MovedOn(t, prev, days[d])
    ensures RunsTo(t, days, d)
  {
    assert NamesAll(days, d);
    forall c, a ensures AmountAt(t, c, a) == Before(Balances(days, c, a), d + 1) {
      if c !in days[d] {
        AbsentEverywhere(days, c, a, d + 1);
      } else {
        assert AmountAt(prev, c, a) == Before(Balances(days, c, a), d);
      }
    }
    forall c, a | c != ANY ensures RecordAt(t, c, a) == LastRecord(days, d, c, a) {
      if c !in days[d] {
        NeverListed(days, c, a, d);
      } else {
        assert RecordAt(prev, c, a) == LastRecord(days, d - 1, c, a);
      }
    }
  }

  /** The running total of every day, for any mix of cached and uncached days. Cached days
      must read right; so do all results, and so does the cache afterwards. For later calls
      it stays right if and only if midnight did not fall between the two readings of the
      clock, for `today` and for the last day. */
  method CreateTvlCumulative(
    daily: map<nat, LockedTable>, first: nat, last: nat, today: nat, warm: map<nat, LockedTable>, override: set<nat>)
    returns (results: map<nat, LockedTable>, cache: map<nat, LockedTable>)
    requires first <= today <= last && (forall d: nat :: d in daily <==> first <= d <= last) && Padded(daily)
    requires AllRunTo(warm, daily)
    ensures forall d: nat :: d in results <==> first <= d <= last
    ensures forall d: nat :: d in cache <==> d in warm || (first <= d <= last && d != today)
    ensures AllRunTo(results, daily) && AllRunTo(cache, daily)
    ensures (forall d <- warm :: d < last) ==> (StaysRight(cache, daily, last) <==> last == today)
  {
    results := map[];
    cache := warm;
    for date := first to last + 1
      invariant forall d: nat :: d in results <==> first <= d < date
      invariant forall d: nat :: d in cache <==> d in warm || (first <= d < date && d != today)
      invariant AllRunTo(results, daily) && AllRunTo(cache, daily)
    {
      if date in cache && date !in override {
        var copied := CopyLocked(cache[date]);
        CopyRunsTo(cache[date], daily, date);
        results := results[date := copied];
      } else {
        var table := NextLockedDay(daily, first, date, if date == first then map[] else results[date - 1]);
        results := results[date := table];
        if date != today && (date !in cache || date in override) {
          cache := cache[date := table];
        }
      }
    }
    StaysRightIff(cache, daily, last);
    assert last != today ==> last in cache;
  }

  ghost predicate AllRunTo(tables: map<nat, LockedTable>, days: map<nat, LockedTable>) {
    forall d <- tables :: RunsTo(tables[d], days, d)
  }

  /** A day that is not cached: a copy of the first day, or the previous total plus the day. */
  method NextLockedDay(daily: map<nat, LockedTable>, first: nat, date: nat, prev: LockedTable)
    returns (t: LockedTable)
    requires first <= date && date in daily && Padded(daily) && forall d <- daily :: first <= d
    requires date > first ==> RunsTo(prev, daily, date - 1)
    ensures RunsTo(t, daily, date)
  {
    if date == first {
      t := CopyLocked(daily[date]);
      FirstDay(daily, first);
      CopyRunsTo(daily[date], daily, date);
    } else {
      t := AccumulateLocked(prev, daily[date]);
      MovedMeaning(prev, daily[date]);
      CarriesForward(daily, date, prev, t);
    }
  }

  // ----- what the cache is worth to later calls -----

  /** What the tables say about a token on a day, if the day is there. */
  function TokenOn(days: map<nat, LockedTable>, e: nat, c: string, a: string): (real, Option<LockedAsset>) {
    if e in days then (AmountAt(days[e], c, a), RecordAt(days[e], c, a)) else (0.0, None)
  }

  /** The days before `last` read the same. */
  ghost predicate SamePast(days: map<nat, LockedTable>, later: map<nat, LockedTable>, last: nat) {
    forall e: nat, c, a | e < last :: TokenOn(days, e, c, a) == TokenOn(later, e, c, a)
  }

  lemma RunsToStable(t: LockedTable, days: map<nat, LockedTable>, later: map<nat, LockedTable>, d: nat)
    requires RunsTo(t, days, d) && SamePast(days, later, d + 1)
    ensures RunsTo(t, later, d)
  {
    forall c, a
      ensures Before(Balances(days, c, a), d + 1) == Before(Balances(later, c, a), d + 1)
      ensures LastRecord(days, d, c, a) == LastRecord(later, d, c, a)
    {
      var u, v := Balances(days, c, a), Balances(later, c, a);
      forall e: nat | e < d + 1
        ensures (if e in u then u[e] else 0.0) == (if e in v then v[e] else 0.0)
        ensures TokenOn(days, e, c, a).1 == TokenOn(later, e, c, a).1
      {
        assert TokenOn(days, e, c, a) == TokenOn(later, e, c, a);
      }
      BeforeAgree(u, v, d + 1);
      LastRecordAgree(days, later, d, c, a);
    }
  }

  /** The cache stays right whatever `last`, the day that is still running, and the days
      after it will hold. */
  ghost predicate StaysRight(cache: map<nat, LockedTable>, days: map<nat, LockedTable>, last: nat) {
    forall later | SamePast(days, later, last) :: AllRunTo(cache, later)
  }

  /** That is so exactly when it holds no running total of the running day. */
  lemma StaysRightIff(cache: map<nat, LockedTable>, days: map<nat, LockedTable>, last: nat)
    requires AllRunTo(cache, days)
    ensures StaysRight(cache, days, last) <==> forall d <- cache :: d < last
  {
    if forall d <- cache :: d < last {
      forall later | SamePast(days, later, last) ensures AllRunTo(cache, later) {
        forall d <- cache ensures RunsTo(cache[d], later, d) {
          RunsToStable(cache[d], days, later, d);
        }
      }
    } else {
      var d :| d in cache && d >= last;
      OneMoreMeaning(days, last, d);
      assert SamePast(days, OneMore(days, last), last);
      assert !RunsTo(cache[d], OneMore(days, last), d);
    }
  }

  /** The days with one more of token "t" locked on chain 1 on day `d`. */
  function OneMore(days: map<nat, LockedTable>, d: nat): map<nat, LockedTable> {
    var amount := if d in days then AmountAt(days[d], "1", "t") else 0.0;
    days[d := map["1" := map["t" := NO_ASSET.(amount := amount + 1.0)]]]
  }

  lemma OneMoreMeaning(days: map<nat, LockedTable>, last: nat, d: nat)
    requires d >= last
    ensures Before(Balances(OneMore(days, last), "1", "t"), d + 1) == Before(Balances(days, "1", "t"), d + 1) + 1.0
  {
    var u, v := Balances(OneMore(days, last), "1", "t"), Raised(Balances(days, "1", "t"), last, 1.0);
    BeforeUpdate(Balances(days, "1", "t"), last, 1.0, d + 1);
    BeforeAgree(u, v, d + 1);
  }

  lemma {:induction false} LastRecordAgree(
    days: map<nat, LockedTable>, later: map<nat, LockedTable>, d: nat, c: string, a: string)
    requires forall e: nat | e <= d :: TokenOn(days, e, c, a).1 == TokenOn(later, e, c, a).1
    ensures LastRecord(days, d, c, a) == LastRecord(later, d, c, a)
  {
    assert TokenOn(days, d, c, a).1 == TokenOn(later, d, c, a).1;
    if d > 0 { LastRecordAgree(days, later, d - 1, c, a); }
  }

  lemma FirstDay(days: map<nat, LockedTable>, first: nat)
    requires first in days && forall d <- days :: first <= d
    ensures RunsTo(days[first], days, first)
  {
    forall c, a
      ensures Before(Balances(days, c, a), first) == 0.0
      ensures RecordAt(days[first], c, a) == LastRecord(days, first, c, a)
    {
      BeforeAgree(Balances(days, c, a), map[], first);
      BeforeEmpty(first);
      if first > 0 { NeverListed(days, c, a, first - 1); }
    }
  }

  /** Both routes give the same locked amount, and it is the signed sum over all kept rows
      of all days. */
  lemma TwoRoutesAgree(
    rows: seq<Row>, day: seq<nat>, skip: set<string>, days: map<nat, LockedTable>, today: nat,
    summed: LockedTable, latest: LockedTable, c: string, a: string)
    requires |rows| == |day| && forall i :: 0 <= i < |day| ==> day[i] <= today
    requires forall d: nat :: d in days ==> d <= today
    requires forall d: nat :: d <= today ==>
      (if d in days then AmountAt(days[d], c, a) else 0.0) == AmountAt(LockedOf(OnDay(rows, day, d), skip), c, a)
    requires AmountAt(summed, c, a) == Before(Balances(days, c, a), today + 1)   // TvlSinceDate
    requires RunsTo(latest, days, today)                                        // CreateTvlCumulative
    ensures AmountAt(latest, c, a) == AmountAt(summed, c, a) == Total(Locked(c, a, skip), rows)
  {
    var q := Locked(c, a, skip);
    SplitIntoDays(q, rows, day, today + 1);
    var u, v := Balances(days, c, a), DayTotals(q, rows, day, today + 1);
    forall d: nat | d < today + 1
      ensures (if d in u then u[d] else 0.0) == (if d in v then v[d] else 0.0)
    {
      LockedMeaning(OnDay(rows, day, d), skip, c, a);
    }
    BeforeAgree(u, v, today + 1);
  }
}
