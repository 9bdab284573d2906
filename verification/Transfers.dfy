/** Transfer rows and what every aggregate built from them is meant to hold.

    A `Query` names one cell of one aggregate. `Weight` is what a single row adds to
    that cell and `Total` adds up a list of rows; the aggregation loops are proved
    against `Total`. `Matched` is the reference meaning, written without reference to
    the loops: the sum of the notional of the rows that match the query, with "*"
    standing for any value.
 */
module Transfers {

  /** The key under which aggregates keep their totals. */
  const ANY := "*"

  /** One row of the event table, as read for aggregation. */
  datatype Row = Row(
    key: string,
    symbol: string,
    name: string,
    tokenAddress: string,
    tokenAmount: real,
    coinGeckoId: string,
    origin: string,
    leaving: string,
    destination: string,
    destinationAddress: string,
    notional: real,
    price: real)

  datatype Query =
    | To(chain: string, sym: string)
    | Cube(from: string, dest: string, sym: string)
    | Address(chain: string, address: string)
    | Locked(home: string, token: string, skip: set<string>)

  /** What a row worth `x` adds under key `q` when it is filed both under its own field
      value and under "*". */
  function Spread(x: real, field: string, q: string): real {
    (if field == q then x else 0.0) + (if q == ANY then x else 0.0)
  }

  /** The rows that count towards locked value: priced tokens with an address that is
      not excluded. */
  predicate Kept(r: Row, skip: set<string>) {
    r.coinGeckoId != "" && r.tokenAddress !in skip && r.tokenAddress != ""
  }

  /** How a row moves the amount locked on its token's home chain. */
  function Change(r: Row): real {
    if r.origin == r.destination then -r.tokenAmount
    else if r.origin == r.leaving then r.tokenAmount
    else 0.0
  }

  function Weight(q: Query, r: Row): real {
    match q
    case To(chain, sym) => Spread(Spread(r.notional, r.symbol, sym), r.destination, chain)
    case Cube(from, dest, sym) =>
      Spread(Spread(Spread(r.notional, r.symbol, sym), r.destination, dest), r.leaving, from)
    case Address(chain, address) =>
      if r.destination == chain && r.destinationAddress == address then r.notional else 0.0
    case Locked(home, token, skip) =>
      if Kept(r, skip) && r.origin == home && r.tokenAddress == token then Change(r) else 0.0
  }

  function Total(q: Query, rows: seq<Row>): real {
    if rows == [] then 0.0
    else Total(q, rows[..|rows| - 1]) + Weight(q, rows[|rows| - 1])
  }

  lemma {:induction false} TotalAppend(q: Query, a: seq<Row>, b: seq<Row>)
    ensures Total(q, a + b) == Total(q, a) + Total(q, b)
  {
    if b == [] {
      assert a + b == a;
    } else {
      var n := |b| - 1;
      assert (a + b)[..|a + b| - 1] == a + b[..n];
      TotalAppend(q, a, b[..n]);
    }
  }

  /** The same for the rows whose key starts with a prefix only. */
  function TotalUnder(q: Query, prefix: string, rows: seq<Row>): real {
    if rows == [] then 0.0
    else
      var r := rows[|rows| - 1];
      TotalUnder(q, prefix, rows[..|rows| - 1]) + (if prefix <= r.key then Weight(q, r) else 0.0)
  }

  // ----- the reference meaning of the other aggregates -----

  /** What the picked rows are worth together. */
  function Sum(rows: seq<Row>, pick: Row -> bool, worth: Row -> real): real {
    if rows == [] then 0.0
    else
      var r := rows[|rows| - 1];
      Sum(rows[..|rows| - 1], pick, worth) + (if pick(r) then worth(r) else 0.0)
  }

  /** An address's total is the notional of what was sent to it on the chain. */
  lemma {:induction false} AddressTotals(c: string, a: string, rows: seq<Row>)
    ensures Total(Address(c, a), rows)
         == Sum(rows, (r: Row) => r.destination == c && r.destinationAddress == a, (r: Row) => r.notional)
  {
    if rows != [] { AddressTotals(c, a, rows[..|rows| - 1]); }
  }

  /** A priced row of the token from its home chain. */
  predicate OfToken(r: Row, home: string, token: string, skip: set<string>) {
    r.origin == home && r.tokenAddress == token && token != "" && token !in skip && r.coinGeckoId != ""
  }

  /** What is locked is what has left the home chain for another less what has come back. */
  lemma {:induction false} LockedTotals(home: string, token: string, skip: set<string>, rows: seq<Row>)
    ensures Total(Locked(home, token, skip), rows)
         == Sum(rows, (r: Row) => OfToken(r, home, token, skip) && r.leaving == home && r.destination != home, (r: Row) => r.tokenAmount)
          - Sum(rows, (r: Row) => OfToken(r, home, token, skip) && r.destination == home, (r: Row) => r.tokenAmount)
  {
    if rows != [] { LockedTotals(home, token, skip, rows[..|rows| - 1]); }
  }

  // ----- the reference meaning of the wildcard aggregates -----

  predicate Accepts(q: string, field: string) {
    q == ANY || q == field
  }

  predicate Matches(q: Query, r: Row)
    requires q.To? || q.Cube?
  {
    match q
    case To(chain, sym) => Accepts(chain, r.destination) && Accepts(sym, r.symbol)
    case Cube(from, dest, sym) =>
      Accepts(from, r.leaving) && Accepts(dest, r.destination) && Accepts(sym, r.symbol)
  }

  function Matched(q: Query, rows: seq<Row>): real
    requires q.To? || q.Cube?
  {
    if rows == [] then 0.0
    else
      var r := rows[|rows| - 1];
      Matched(q, rows[..|rows| - 1]) + (if Matches(q, r) then r.notional else 0.0)
  }

  /** No field that aggregates are keyed by is itself the wildcard. */
  predicate Plain(q: Query, r: Row)
    requires q.To? || q.Cube?
  {
    r.symbol != ANY && r.destination != ANY && (q.Cube? ==> r.leaving != ANY)
  }

  /** The all-wildcard query of the same aggregate. */
  function Everything(q: Query): Query
    requires q.To? || q.Cube?
  {
    if q.To? then To(ANY, ANY) else Cube(ANY, ANY, ANY)
  }

  /** Rows of some value do not use the wildcard as a value. */
  ghost predicate ValuedArePlain(q: Query, rows: seq<Row>)
    requires q.To? || q.Cube?
  {
    forall r <- rows :: r.notional == 0.0 || Plain(q, r)
  }

  /** Where no row of value uses "*" as a value, totals are sums over matching rows. */
  lemma {:induction false} PlainTotals(q: Query, rows: seq<Row>)
    requires (q.To? || q.Cube?) && ValuedArePlain(q, rows)
    ensures Total(q, rows) == Matched(q, rows)
  {
    if rows != [] {
      PlainTotals(q, rows[..|rows| - 1]);
      var r := rows[|rows| - 1];
      assert r.notional == 0.0 || Plain(q, r);
    }
  }

  lemma {:induction false} StarRowsInflate(q: Query, rows: seq<Row>)
    requires q.To? || q.Cube?
    requires forall r <- rows :: r.notional >= 0.0
    ensures Total(Everything(q), rows) >= Matched(Everything(q), rows)
    ensures Total(Everything(q), rows) == Matched(Everything(q), rows) <==> ValuedArePlain(q, rows)
  {
    if rows != [] {
      var init, last := rows[..|rows| - 1], rows[|rows| - 1];
      StarRowsInflate(q, init);
      assert rows == init + [last];
      assert ValuedArePlain(q, rows) <==> ValuedArePlain(q, init) && (last.notional == 0.0 || Plain(q, last));
      if !Plain(q, last) {
        assert Weight(Everything(q), last) >= last.notional + last.notional;
      }
    }
  }

  /** Exactly when the aggregates mean what they say: every cell is the sum over matching
      rows if and only if no row of positive value carries the wildcard as its symbol or
      chain. */
  lemma TotalsExactIffPlain(q: Query, rows: seq<Row>)
    requires q.To? || q.Cube?
    requires forall r <- rows :: r.notional >= 0.0
    ensures (forall p: Query :: (if q.To? then p.To? else p.Cube?) ==> Total(p, rows) == Matched(p, rows))
        <==> ValuedArePlain(q, rows)
  {
    StarRowsInflate(q, rows);
    if ValuedArePlain(q, rows) {
      forall p: Query | if q.To? then p.To? else p.Cube?
        ensures Total(p, rows) == Matched(p, rows)
      {
        forall r <- rows ensures r.notional == 0.0 || Plain(p, r) {
          assert r.notional == 0.0 || Plain(q, r);
        }
        PlainTotals(p, rows);
      }
    } else {
      var p := Everything(q);
      assert if q.To? then p.To? else p.Cube?;
    }
  }

  /** A token whose symbol is "*" is counted twice: in the total of its chain and in the
      total of all chains. */
  lemma StarSymbolCountsTwice(r: Row)
    requires r.symbol == ANY && r.destination != ANY
    ensures Total(To(ANY, ANY), [r]) == Total(To(r.destination, ANY), [r]) == 2.0 * r.notional
    ensures Matched(To(ANY, ANY), [r]) == Matched(To(r.destination, ANY), [r]) == r.notional
  {
    assert [r][..0] == [];
    assert Total(To(ANY, ANY), []) == 0.0 && Total(To(r.destination, ANY), []) == 0.0;
    assert Matched(To(ANY, ANY), []) == 0.0 && Matched(To(r.destination, ANY), []) == 0.0;
  }

  // ----- splitting rows into days -----

  /** The rows filed under day `d`, where `day[i]` is the day of `rows[i]`. */
  function OnDay(rows: seq<Row>, day: seq<nat>, d: nat): seq<Row>
    requires |rows| == |day|
  {
    if rows == [] then []
    else
      var n := |rows| - 1;
      OnDay(rows[..n], day[..n], d) + (if day[n] == d then [rows[n]] else [])
  }
}

/** Sums over days. A column holds one number per day. */
module DaySums {
  import opened Transfers

  type Column = map<nat, real>

  /** The sum of the entries for days before `hi`. */
  function Before(col: Column, hi: nat): real {
    if hi == 0 then 0.0
    else Before(col, hi - 1) + (if hi - 1 in col then col[hi - 1] else 0.0)
  }

  /** A column with one day's entry raised. */
  function Raised(col: Column, d: nat, x: real): Column {
    col[d := (if d in col then col[d] else 0.0) + x]
  }

  /** Raising one day's entry by `x` raises every later sum by `x`, whatever the order in
      which the days are visited. */
  lemma {:induction false} BeforeUpdate(col: Column, d: nat, x: real, hi: nat)
    ensures Before(Raised(col, d, x), hi) == Before(col, hi) + (if d < hi then x else 0.0)
  {
    if hi > 0 {
      BeforeUpdate(col, d, x, hi - 1);
    }
  }

  lemma {:induction false} BeforeEmpty(hi: nat)
    ensures Before(map[], hi) == 0.0
  {
    if hi > 0 { BeforeEmpty(hi - 1); }
  }

  /** Only the entries below `hi` matter. */
  lemma {:induction false} BeforeAgree(u: Column, v: Column, hi: nat)
    requires forall d: nat :: d < hi ==> (if d in u then u[d] else 0.0) == (if d in v then v[d] else 0.0)
    ensures Before(u, hi) == Before(v, hi)
  {
    if hi > 0 { BeforeAgree(u, v, hi - 1); }
  }

  function DayTotals(q: Query, rows: seq<Row>, day: seq<nat>, hi: nat): Column
    requires |rows| == |day|
  {
    map d: nat | d < hi :: Total(q, OnDay(rows, day, d))
  }

  /** Partition independence: however rows are split into days, the day totals add up to
      the total of one pass over all the rows. */
  lemma {:induction false} SplitIntoDays(q: Query, rows: seq<Row>, day: seq<nat>, hi: nat)
    requires |rows| == |day|
    requires forall i :: 0 <= i < |day| ==> day[i] < hi
    ensures Before(DayTotals(q, rows, day, hi), hi) == Total(q, rows)
  {
    if rows == [] {
      BeforeEmpty(hi);
      BeforeAgree(DayTotals(q, rows, day, hi), map[], hi);
    } else {
      var n := |rows| - 1;
      SplitIntoDays(q, rows[..n], day[..n], hi);
      OneMoreRow(q, rows, day, hi);
    }
  }

  lemma OneMoreRow(q: Query, rows: seq<Row>, day: seq<nat>, hi: nat)
    requires |rows| == |day| > 0 && day[|rows| - 1] < hi
    ensures Before(DayTotals(q, rows, day, hi), hi)
         == Before(DayTotals(q, rows[..|rows| - 1], day[..|rows| - 1], hi), hi) + Weight(q, rows[|rows| - 1])
  {
    var n := |rows| - 1;
    OneMoreColumn(q, rows, day, hi);
    BeforeUpdate(DayTotals(q, rows[..n], day[..n], hi), day[n], Weight(q, rows[n]), hi);
  }

  lemma OneMoreColumn(q: Query, rows: seq<Row>, day: seq<nat>, hi: nat)
    requires |rows| == |day| > 0 && day[|rows| - 1] < hi
    ensures DayTotals(q, rows, day, hi)
         == Raised(DayTotals(q, rows[..|rows| - 1], day[..|rows| - 1], hi), day[|rows| - 1], Weight(q, rows[|rows| - 1]))
  {
    var n := |rows| - 1;
    var u, v := DayTotals(q, rows, day, hi), DayTotals(q, rows[..n], day[..n], hi);
    forall e: nat | e < hi ensures u[e] == v[e] + (if day[n] == e then Weight(q, rows[n]) else 0.0) {
      OneMore(q, rows, day, e);
    }
    IsRaised(u, v, day[n], Weight(q, rows[n]));
  }

  lemma IsRaised(u: Column, v: Column, d: nat, x: real)
    requires u.Keys == v.Keys && d in v && forall e <- v :: u[e] == v[e] + (if d == e then x else 0.0)
    ensures u == Raised(v, d, x)
  {
  }

  lemma OneMore(q: Query, rows: seq<Row>, day: seq<nat>, e: nat)
    requires |rows| == |day| > 0
    ensures Total(q, OnDay(rows, day, e))
         == Total(q, OnDay(rows[..|rows| - 1], day[..|rows| - 1], e))
          + (if day[|rows| - 1] == e then Weight(q, rows[|rows| - 1]) else 0.0)
  {
    var n := |rows| - 1;
    var init := OnDay(rows[..n], day[..n], e);
    if day[n] == e {
      assert (init + [rows[n]])[..|init|] == init;
    } else {
      assert init + [] == init;
    }
  }
}
