/** The three-way cube: value by leaving chain, destination chain and symbol, with totals
    under "*" in every position. */
module Cubes {
  import opened Transfers
  import opened DaySums
  import opened Tables

  type Cube = map<string, Table>

  /** A leaving chain with nothing sent from it. */
  const BLANK_LEAVING: Table := map[ANY := BLANK]
  const EMPTY_CUBE: Cube := map[ANY := BLANK_LEAVING]

  function Look3(u: Cube, a: string, b: string, s: string): real {
    if a in u then Look(u[a], b, s) else 0.0
  }

  /** Every leaving chain has its "*" destination, and "*" is a leaving chain. */
  predicate Rooted(u: Cube) {
    ANY in u && forall a <- u :: ANY in u[a]
  }

  /** `u[a][b][s] = u[a][b][s] + x`. The inner maps must exist. */
  function Bump3(u: Cube, a: string, b: string, s: string, x: real): Cube
    requires a in u && b in u[a]
  {
    u[a := Bump(u[a], b, s, x)]
  }

  lemma LookBump3(u: Cube, a: string, b: string, s: string, x: real, a': string, b': string, s': string)
    requires a in u && b in u[a]
    ensures Look3(Bump3(u, a, b, s, x), a', b', s')
         == Look3(u, a', b', s') + (if a == a' && b == b' && s == s' then x else 0.0)
  {
    LookBump(u[a], b, s, x, b', s');
  }

  /** Creates the inner maps that a row writes through. */
  function Prepare(u: Cube, r: Row): (v: Cube)
    requires Rooted(u)
    ensures Rooted(v) && r.leaving in v && r.destination in v[r.leaving] && r.destination in v[ANY]
  {
    var u := if r.leaving in u then u else u[r.leaving := BLANK_LEAVING];
    var u := u[r.leaving := Ensure(u[r.leaving], r.destination, BLANK)];
    u[ANY := Ensure(u[ANY], r.destination, BLANK)]
  }

  /** Files one row under all four combinations of destination and symbol of one root. */
  function FileUnder(u: Cube, root: string, r: Row): (v: Cube)
    requires Rooted(u) && root in u && r.destination in u[root]
    ensures Rooted(v) && u[ANY].Keys <= v[ANY].Keys
  {
    var u := Bump3(u, root, ANY, ANY, r.notional);
    var u := Bump3(u, root, r.destination, ANY, r.notional);
    var u := Bump3(u, root, ANY, r.symbol, r.notional);
    Bump3(u, root, r.destination, r.symbol, r.notional)
  }

  /** The same under the "*" root, in the order of the source. */
  function FileUnderAny(u: Cube, r: Row): (v: Cube)
    requires Rooted(u) && r.destination in u[ANY]
    ensures Rooted(v)
  {
    var u := Bump3(u, ANY, r.destination, ANY, r.notional);
    var u := Bump3(u, ANY, r.destination, r.symbol, r.notional);
    var u := Bump3(u, ANY, ANY, r.symbol, r.notional);
    Bump3(u, ANY, ANY, ANY, r.notional)
  }

  function CubeStep(u: Cube, r: Row): (v: Cube)
    requires Rooted(u)
    ensures Rooted(v)
  {
    FileUnderAny(FileUnder(Prepare(u, r), r.leaving, r), r)
  }

  function CubeOf(rows: seq<Row>): (u: Cube)
    ensures Rooted(u)
  {
    if rows == [] then EMPTY_CUBE
    else CubeStep(CubeOf(rows[..|rows| - 1]), rows[|rows| - 1])
  }

  lemma PrepareMeaning(u: Cube, r: Row, a: string, b: string, s: string)
    requires Rooted(u)
    ensures Look3(Prepare(u, r), a, b, s) == Look3(u, a, b, s)
  {
  }

  lemma FileUnderMeaning(u: Cube, root: string, r: Row, a: string, b: string, s: string)
    requires Rooted(u) && root in u && r.destination in u[root]
    ensures Look3(FileUnder(u, root, r), a, b, s) == Look3(u, a, b, s)
         + (if root == a then Spread(Spread(r.notional, r.symbol, s), r.destination, b) else 0.0)
  {
    var u1 := Bump3(u, root, ANY, ANY, r.notional);
    var u2 := Bump3(u1, root, r.destination, ANY, r.notional);
    var u3 := Bump3(u2, root, ANY, r.symbol, r.notional);
    LookBump3(u, root, ANY, ANY, r.notional, a, b, s);
    LookBump3(u1, root, r.destination, ANY, r.notional, a, b, s);
    LookBump3(u2, root, ANY, r.symbol, r.notional, a, b, s);
    LookBump3(u3, root, r.destination, r.symbol, r.notional, a, b, s);
  }

  lemma FileUnderAnyMeaning(u: Cube, r: Row, a: string, b: string, s: string)
    requires Rooted(u) && r.destination in u[ANY]
    ensures Look3(FileUnderAny(u, r), a, b, s) == Look3(u, a, b, s)
         + (if a == ANY then Spread(Spread(r.notional, r.symbol, s), r.destination, b) else 0.0)
  {
    var u1 := Bump3(u, ANY, r.destination, ANY, r.notional);
    var u2 := Bump3(u1, ANY, r.destination, r.symbol, r.notional);
    var u3 := Bump3(u2, ANY, ANY, r.symbol, r.notional);
    LookBump3(u, ANY, r.destination, ANY, r.notional, a, b, s);
    LookBump3(u1, ANY, r.destination, r.symbol, r.notional, a, b, s);
    LookBump3(u2, ANY, ANY, r.symbol, r.notional, a, b, s);
    LookBump3(u3, ANY, ANY, ANY, r.notional, a, b, s);
  }

  /** Cube meaning: every cell, with "*" in any position, is the total of the rows. */
  lemma {:induction false} CubeMeaning(rows: seq<Row>, a: string, b: string, s: string)
    ensures Look3(CubeOf(rows), a, b, s) == Total(Cube(a, b, s), rows)
  {
    if rows != [] {
      var u, r := CubeOf(rows[..|rows| - 1]), rows[|rows| - 1];
      CubeMeaning(rows[..|rows| - 1], a, b, s);
      var p := Prepare(u, r);
      PrepareMeaning(u, r, a, b, s);
      FileUnderMeaning(p, r.leaving, r, a, b, s);
      FileUnderAnyMeaning(FileUnder(p, r.leaving, r), r, a, b, s);
    }
  }

  // ----- square padding -----

  /** All chains that occur as a leaving chain or as a destination. */
  function Seen(u: Cube): set<string> {
    u.Keys + set a, b | a in u && b in u[a] :: b
  }

  /** The set-building loops of the source. */
  method CollectSeen(u: Cube) returns (seen: set<string>)
    ensures seen == Seen(u)
  {
    seen := {};
    var todo := u.Keys;
    while todo != {}
      invariant todo <= u.Keys
      invariant seen == (u.Keys - todo) + set a, b | a in u && a !in todo && b in u[a] :: b
    {
      var leaving :| leaving in todo;
      todo := todo - {leaving};
      seen := seen + {leaving} + u[leaving].Keys;
    }
  }

  /** Adds the missing destinations of one leaving chain. */
  method PadDestinations(dests: Table, seen: set<string>) returns (t: Table)
    ensures t.Keys == dests.Keys + seen
    ensures forall b, s :: Look(t, b, s) == Look(dests, b, s)
  {
    t := dests;
    var todo := seen;
    while todo != {}
      invariant todo <= seen && t.Keys == dests.Keys + (seen - todo)
      invariant forall b, s :: Look(t, b, s) == Look(dests, b, s)
    {
      var chain :| chain in todo;
      todo := todo - {chain};
      if chain !in t {
        t := t[chain := map[ANY := 0.0]];
      }
    }
  }

  /** Gives the root the missing chains, each with an empty "*" destination. */
  method PadRoots(u: Cube, seen: set<string>) returns (v: Cube)
    ensures v.Keys == u.Keys + seen
    ensures forall a <- v :: v[a] == if a in u then u[a] else BLANK_LEAVING
  {
    v := u;
    var todo := seen;
    while todo != {}
      invariant todo <= seen && v.Keys == u.Keys + (seen - todo)
      invariant forall a <- v :: v[a] == if a in u then u[a] else BLANK_LEAVING
    {
      var chain :| chain in todo;
      todo := todo - {chain};
      if chain !in v {
        v := v[chain := map[ANY := map[ANY := 0.0]]];
      }
    }
  }

  lemma SeenHas(u: Cube, a: string)
    requires a in u
    ensures u[a].Keys <= Seen(u)
  {
  }

  lemma PaddedRootsFit(u: Cube, w: Cube, a: string)
    requires Rooted(u)
    requires w.Keys == u.Keys + Seen(u)
    requires a in w ==> w[a] == if a in u then u[a] else BLANK_LEAVING
    ensures w.Keys == Seen(u)
    ensures a in w ==> w[a].Keys + Seen(u) == Seen(u)
    ensures forall b, s :: Look3(w, a, b, s) == Look3(u, a, b, s)
  {
    SeenHas(u, ANY);
    if a in u { SeenHas(u, a); }
  }

  /** Gives every leaving chain the missing destinations. */
  method PadAllDestinations(w: Cube, seen: set<string>) returns (v: Cube)
    ensures v.Keys == w.Keys
    ensures forall a <- v :: v[a].Keys == w[a].Keys + seen
    ensures forall a, b, s :: Look3(v, a, b, s) == Look3(w, a, b, s)
  {
    v := w;
    var todo := w.Keys;
    while todo != {}
      invariant todo <= w.Keys == v.Keys
      invariant forall a <- v :: v[a].Keys == if a in todo then w[a].Keys else w[a].Keys + seen
      invariant forall a <- v :: forall b, s :: Look(v[a], b, s) == Look(w[a], b, s)
    {
      var leaving :| leaving in todo;
      todo := todo - {leaving};
      var padded := PadDestinations(v[leaving], seen);
      v := v[leaving := padded];
    }
  }

  /** Square padding: afterwards the root and every destination level have exactly the
      chains seen anywhere, and no cell reads differently. */
  method SquarePad(u: Cube) returns (v: Cube)
    requires Rooted(u)
    ensures v.Keys == Seen(u)
    ensures forall a <- v :: v[a].Keys == Seen(u)
    ensures forall a, b, s :: Look3(v, a, b, s) == Look3(u, a, b, s)
  {
    var seen := CollectSeen(u);
    var w := PadRoots(u, seen);
    forall a
      ensures a in w ==> w[a].Keys + seen == seen
      ensures forall b, s :: Look3(w, a, b, s) == Look3(u, a, b, s)
    {
      PaddedRootsFit(u, w, a);
    }
    v := PadAllDestinations(w, seen);
  }

  // ----- the padding of the daily cubes -----

  /** The second padding loop of the daily function. It means to add missing destinations but
      looks for the chain at the root: where all chains are there, it changes nothing. */
  method PadUnderMissingRoots(u: Cube, seen: set<string>) returns (v: Cube)
    ensures seen <= u.Keys ==> v == u
  {
    v := u;
    var todo := u.Keys;
    while todo != {}
      invariant todo <= u.Keys == v.Keys && (seen <= u.Keys ==> v == u)
    {
      var leaving :| leaving in todo;
      todo := todo - {leaving};
      var rest := seen;
      while rest != {}
        invariant rest <= seen && u.Keys == v.Keys && (seen <= u.Keys ==> v == u)
      {
        var chain :| chain in rest;
        rest := rest - {chain};
        if chain !in v {
          v := v[leaving := v[leaving][chain := map[ANY := 0.0]]];
        }
      }
    }
  }

  /** A day with the missing roots added, and nothing else. */
  function RootsPadded(u: Cube, seen: set<string>): Cube {
    map a | a in u.Keys + seen :: if a in u then u[a] else BLANK_LEAVING
  }

  /** Both padding loops of the daily function, for one day: leaving chains keep exactly
      their destinations. */
  method PadDay(u: Cube, seen: set<string>) returns (v: Cube)
    ensures v == RootsPadded(u, seen)
    ensures forall a, b, s :: Look3(v, a, b, s) == Look3(u, a, b, s)
  {
    v := PadRoots(u, seen);
    v := PadUnderMissingRoots(v, seen);
  }

  predicate Square(v: Cube, seen: set<string>) {
    v.Keys == seen && forall a <- v :: v[a].Keys == seen
  }

  predicate Names2(u: Cube, a: string, b: string) {
    a in u && b in u[a]
  }

  /** The set names every chain of the cube. */
  ghost predicate Within(u: Cube, seen: set<string>) {
    forall a, b | Names2(u, a, b) :: a in seen && b in seen
  }

  ghost predicate NamesAllPairs(u: Cube, seen: set<string>) {
    forall a, b | a in seen && b in seen :: Names2(u, a, b)
  }

  lemma SquareMeans(u: Cube, seen: set<string>)
    requires Rooted(u) && Within(u, seen)
    ensures Square(u, seen) <==> NamesAllPairs(u, seen)
  {
    if NamesAllPairs(u, seen) {
      RootsOfPairs(u, seen);
      forall a <- u ensures u[a].Keys == seen {
        RowOfPairs(u, a, seen);
      }
    }
  }

  lemma RootsOfPairs(u: Cube, seen: set<string>)
    requires Rooted(u) && Within(u, seen) && NamesAllPairs(u, seen)
    ensures u.Keys == seen
  {
    assert Names2(u, ANY, ANY);
    forall a ensures a in u.Keys <==> a in seen {
      if a in u { assert Names2(u, a, ANY); }
      if a in seen { assert Names2(u, a, ANY); }
    }
  }

  lemma RowOfPairs(u: Cube, a: string, seen: set<string>)
    requires a in u && a in seen && Within(u, seen) && NamesAllPairs(u, seen)
    ensures u[a].Keys == seen
  {
    SameMembers(u, a, seen);
  }

  lemma SameMembers(u: Cube, a: string, seen: set<string>)
    requires a in u && forall b :: Names2(u, a, b) <==> b in seen
    ensures u[a].Keys == seen
  {
    forall b ensures b in u[a].Keys <==> b in seen {
      assert Names2(u, a, b) <==> b in seen;
    }
  }

  /** So a day comes out square if and only if it was square before. */
  lemma PaddedDaySquareIff(u: Cube, seen: set<string>)
    requires Rooted(u) && Within(u, seen)
    ensures Square(RootsPadded(u, seen), seen) <==> Square(u, seen)
  {
    var v := RootsPadded(u, seen);
    forall a <- u ensures a in seen { assert Names2(u, a, ANY); }
    if u.Keys == seen {
      assert v == u;
    } else {
      var a :| a in seen && a !in u;
      assert v[a].Keys == {ANY} && ANY in u;
    }
  }

  lemma Bump3Names(u: Cube, a: string, b: string, s: string, x: real, a': string, b': string)
    requires a in u && b in u[a]
    ensures Names2(Bump3(u, a, b, s, x), a', b') <==> Names2(u, a', b')
  {
  }

  lemma FileUnderNames(u: Cube, root: string, r: Row, a: string, b: string)
    requires Rooted(u) && root in u && r.destination in u[root]
    ensures Names2(FileUnder(u, root, r), a, b) <==> Names2(u, a, b)
  {
    var u1 := Bump3(u, root, ANY, ANY, r.notional);
    var u2 := Bump3(u1, root, r.destination, ANY, r.notional);
    var u3 := Bump3(u2, root, ANY, r.symbol, r.notional);
    Bump3Names(u, root, ANY, ANY, r.notional, a, b);
    Bump3Names(u1, root, r.destination, ANY, r.notional, a, b);
    Bump3Names(u2, root, ANY, r.symbol, r.notional, a, b);
    Bump3Names(u3, root, r.destination, r.symbol, r.notional, a, b);
  }

  lemma FileUnderAnyNames(u: Cube, r: Row, a: string, b: string)
    requires Rooted(u) && r.destination in u[ANY]
    ensures Names2(FileUnderAny(u, r), a, b) <==> Names2(u, a, b)
  {
    var u1 := Bump3(u, ANY, r.destination, ANY, r.notional);
    var u2 := Bump3(u1, ANY, r.destination, r.symbol, r.notional);
    var u3 := Bump3(u2, ANY, ANY, r.symbol, r.notional);
    Bump3Names(u, ANY, r.destination, ANY, r.notional, a, b);
    Bump3Names(u1, ANY, r.destination, r.symbol, r.notional, a, b);
    Bump3Names(u2, ANY, ANY, r.symbol, r.notional, a, b);
    Bump3Names(u3, ANY, ANY, ANY, r.notional, a, b);
  }

  /** A row gives its leaving chain, and "*", its destination and "*". */
  predicate Puts(r: Row, a: string, b: string) {
    (a == r.leaving || a == ANY) && (b == r.destination || b == ANY)
  }

  predicate PutByOne(rows: seq<Row>, a: string, b: string) {
    exists r <- rows :: Puts(r, a, b)
  }

  lemma PrepareNames(u: Cube, r: Row, a: string, b: string)
    requires Rooted(u)
    ensures Names2(Prepare(u, r), a, b) <==> Names2(u, a, b) || Puts(r, a, b)
  {
  }

  lemma PutByOneMore(rows: seq<Row>, a: string, b: string)
    requires rows != []
    ensures PutByOne(rows, a, b) <==> PutByOne(rows[..|rows| - 1], a, b) || Puts(rows[|rows| - 1], a, b)
  {
    var init, r := rows[..|rows| - 1], rows[|rows| - 1];
    assert rows == init + [r];
  }

  /** The chains a day's cube names. */
  lemma {:induction false} CubeNames(rows: seq<Row>, a: string, b: string)
    ensures Names2(CubeOf(rows), a, b) <==> a == b == ANY || PutByOne(rows, a, b)
  {
    if rows != [] {
      var init, r := rows[..|rows| - 1], rows[|rows| - 1];
      CubeNames(init, a, b);
      PutByOneMore(rows, a, b);
      var p := Prepare(CubeOf(init), r);
      PrepareNames(CubeOf(init), r, a, b);
      FileUnderNames(p, r.leaving, r, a, b);
      FileUnderAnyNames(FileUnder(p, r.leaving, r), r, a, b);
    }
  }

  predicate Sent(rows: seq<Row>, a: string, b: string) {
    exists r <- rows :: r.leaving == a && r.destination == b
  }

  /** In terms of the day's rows: it comes out square exactly when every chain seen on any
      day sent something to every such chain, itself included. */
  lemma DaySquareIff(rows: seq<Row>, seen: set<string>)
    requires Within(CubeOf(rows), seen)
    ensures Square(RootsPadded(CubeOf(rows), seen), seen) <==>
              forall a, b | a in seen && b in seen && a != ANY && b != ANY :: Sent(rows, a, b)
  {
    var u := CubeOf(rows);
    PaddedDaySquareIff(u, seen);
    SquareMeans(u, seen);
    if NamesAllPairs(u, seen) {
      forall a, b | a in seen && b in seen && a != ANY && b != ANY ensures Sent(rows, a, b) {
        assert Names2(u, a, b);
        CubeNames(rows, a, b);
      }
    }
    if forall a, b | a in seen && b in seen && a != ANY && b != ANY :: Sent(rows, a, b) {
      forall a, b | a in seen && b in seen ensures Names2(u, a, b) {
        CubeNames(rows, a, b);
        var a', b' := if a == ANY then b else a, if b == ANY then a else b;
        if a' != ANY {
          assert Sent(rows, a', b');
          var r :| r in rows && r.leaving == a' && r.destination == b';
          assert Puts(r, a, b);
        }
      }
    }
  }

  /** A day with a single transfer between two chains never comes out square. */
  lemma OneTransferNotSquare(r: Row, seen: set<string>)
    requires Within(CubeOf([r]), seen) && r.leaving != r.destination && r.leaving != ANY
    ensures !Square(RootsPadded(CubeOf([r]), seen), seen)
  {
    CubeNames([r], r.leaving, r.destination);
    assert Puts(r, r.leaving, r.destination);
    SentAtMost(r, r.leaving);
    DaySquareIff([r], seen);
  }

  lemma SentAtMost(r: Row, a: string)
    requires r.leaving != r.destination
    ensures !Sent([r], a, a)
  {
  }

  /** The single-pass query. No update goes through a missing inner map, for any rows. */
  method TransfersForInterval(rows: seq<Row>) returns (v: Cube)
    ensures v.Keys == Seen(CubeOf(rows))
    ensures forall a <- v :: v[a].Keys == v.Keys
    ensures forall a, b, s :: Look3(v, a, b, s) == Total(Cube(a, b, s), rows)
  {
    var u := CubeOfRows(rows);
    v := SquarePad(u);
    forall a, b, s ensures Look3(v, a, b, s) == Total(Cube(a, b, s), rows) {
      CubeMeaning(rows, a, b, s);
    }
  }

  lemma CubeOneMore(rows: seq<Row>, i: nat)
    requires i < |rows|
    ensures CubeOf(rows[..i + 1]) == CubeStep(CubeOf(rows[..i]), rows[i])
  {
    assert rows[..i + 1][..i] == rows[..i];
  }

  /** The row loop shared by the single-pass query and the daily worker. */
  method CubeOfRows(rows: seq<Row>) returns (u: Cube)
    ensures u == CubeOf(rows)
  {
    u := map[ANY := map[ANY := map[ANY := 0.0]]];
    for i := 0 to |rows|
      invariant u == CubeOf(rows[..i])
    {
      CubeOneMore(rows, i);
      u := FileRow(u, rows[i]);
    }
    assert rows[..|rows|] == rows;
  }

  method FileRow(u: Cube, row: Row) returns (v: Cube)
    requires Rooted(u)
    ensures v == CubeStep(u, row)
  {
    v := PrepareMaps(u, row);
    // leaving this chain: to any chain or the destination, all symbols or this one
    v := Bump3(v, row.leaving, ANY, ANY, row.notional);
    v := Bump3(v, row.leaving, row.destination, ANY, row.notional);
    v := Bump3(v, row.leaving, ANY, row.symbol, row.notional);
    v := Bump3(v, row.leaving, row.destination, row.symbol, row.notional);
    // coming from anywhere
    v := Bump3(v, ANY, row.destination, ANY, row.notional);
    v := Bump3(v, ANY, row.destination, row.symbol, row.notional);
    v := Bump3(v, ANY, ANY, row.symbol, row.notional);
    v := Bump3(v, ANY, ANY, ANY, row.notional);
  }

  /** The existence checks at the head of the loop. */
  method PrepareMaps(u: Cube, row: Row) returns (v: Cube)
    requires Rooted(u)
    ensures v == Prepare(u, row)
  {
    v := u;
    if row.leaving !in v {
      v := v[row.leaving := map[ANY := map[ANY := 0.0]]];
    }
    if row.destination !in v[row.leaving] {
      v := v[row.leaving := v[row.leaving][row.destination := map[ANY := 0.0]]];
    }
    if row.destination !in v[ANY] {
      v := v[ANY := v[ANY][row.destination := map[ANY := 0.0]]];
    }
  }

  // ----- adding up days -----

  function Cells3(days: map<nat, Cube>, a: string, b: string, s: string): Column {
    map d | d in days :: Look3(days[d], a, b, s)
  }

  lemma Cells3Add(days: map<nat, Cube>, d: nat, u: Cube, a: string, b: string, s: string, hi: nat)
    requires d !in days && d < hi
    ensures Before(Cells3(days[d := u], a, b, s), hi) == Before(Cells3(days, a, b, s), hi) + Look3(u, a, b, s)
  {
    BeforeUpdate(Cells3(days, a, b, s), d, Look3(u, a, b, s), hi);
    assert Cells3(days[d := u], a, b, s) == Cells3(days, a, b, s)[d := Look3(u, a, b, s)];
  }

  /** The chain occurs in the cube, as a leaving chain or as a destination. */
  ghost predicate Mentions(u: Cube, c: string) {
    c in u || exists a :: a in u && c in u[a]
  }

  lemma SeenMentions(u: Cube, c: string)
    ensures c in Seen(u) <==> Mentions(u, c)
  {
  }

  /** The destinations of a leaving chain. */
  function DestsOf(u: Cube, a: string): set<string> {
    if a in u then u[a].Keys else {}
  }

  /** Cube `r` names what both name, and nothing else. */
  ghost predicate NamesBoth(r: Cube, u: Cube, day: Cube) {
    r.Keys == u.Keys + day.Keys
    && forall a <- r :: r[a].Keys == DestsOf(u, a) + DestsOf(day, a) + (if a in u then {} else {ANY})
  }

  lemma BothMention(r: Cube, u: Cube, day: Cube, c: string)
    requires Rooted(u) && NamesBoth(r, u, day)
    ensures Mentions(r, c) <==> Mentions(u, c) || Mentions(day, c)
  {
    if Mentions(r, c) { MentionedBefore(r, u, day, c); }
    if Mentions(u, c) { StillMentioned(r, u, c); }
    if Mentions(day, c) { StillMentioned(r, day, c); }
  }

  lemma StillMentioned(r: Cube, u: Cube, c: string)
    requires Mentions(u, c) && forall a <- u :: a in r && u[a].Keys <= r[a].Keys
    ensures Mentions(r, c)
  {
    if c !in u {
      var a :| a in u && c in u[a];
      assert a in r && c in r[a];
    }
  }

  lemma MentionedBefore(r: Cube, u: Cube, day: Cube, c: string)
    requires Rooted(u) && NamesBoth(r, u, day) && Mentions(r, c)
    ensures Mentions(u, c) || Mentions(day, c)
  {
    if c !in r {
      var a :| a in r && c in r[a];
      NamedByOne(r, u, day, a, c);
    }
  }

  lemma NamedByOne(r: Cube, u: Cube, day: Cube, a: string, c: string)
    requires ANY in u && a in r && c in r[a]
    requires r[a].Keys == DestsOf(u, a) + DestsOf(day, a) + (if a in u then {} else {ANY})
    ensures Mentions(u, c) || Mentions(day, c)
  {
    if c in DestsOf(u, a) {
      assert a in u && c in u[a];
    } else if c in DestsOf(day, a) {
      assert a in day && c in day[a];
    } else {
      assert c == ANY;
    }
  }

  /** Table `t` is what two cubes say about one leaving chain together. */
  ghost predicate Together(t: Table, u: Cube, day: Cube, a: string) {
    t.Keys == DestsOf(u, a) + DestsOf(day, a) + (if a in u then {} else {ANY})
    && forall b, s :: Look(t, b, s) == Look3(u, a, b, s) + Look3(day, a, b, s)
  }

  method AddLeaving(result: Cube, day: Cube, chain: string) returns (dests: Table)
    requires chain in day
    ensures Together(dests, result, day, chain)
  {
    dests := map[ANY := map[ANY := 0.0]];
    if chain in result {
      dests := result[chain];
    }
    assert forall b, s :: Look(dests, b, s) == Look3(result, chain, b, s);
    dests := AddDay(dests, day[chain], map[ANY := 0.0]);
  }

  /** Adds one day's cube into the result, visiting its chains in any order. */
  method AddCube(result: Cube, day: Cube) returns (r: Cube)
    requires Rooted(result)
    ensures Rooted(r) && NamesBoth(r, result, day)
    ensures forall a, b, s :: Look3(r, a, b, s) == Look3(result, a, b, s) + Look3(day, a, b, s)
  {
    r := result;
    var todo := day.Keys;
    while todo != {}
      invariant todo <= day.Keys && r.Keys == result.Keys + (day.Keys - todo)
      invariant forall a <- r ::
          if a in day && a !in todo then Together(r[a], result, day, a) else a in result && r[a] == result[a]
    {
      var chain :| chain in todo;
      todo := todo - {chain};
      var dests := AddLeaving(result, day, chain);
      r := r[chain := dests];
    }
    AddedUp(r, result, day);
  }

  lemma AddedUp(r: Cube, result: Cube, day: Cube)
    requires Rooted(result) && r.Keys == result.Keys + day.Keys
    requires forall a <- r :: if a in day then Together(r[a], result, day, a) else a in result && r[a] == result[a]
    ensures Rooted(r) && NamesBoth(r, result, day)
    ensures forall a, b, s :: Look3(r, a, b, s) == Look3(result, a, b, s) + Look3(day, a, b, s)
  {
  }

  ghost predicate CellsOfDays(sum: Cube, days: map<nat, Cube>, today: nat) {
    forall a, b, s :: Look3(sum, a, b, s) == Before(Cells3(days, a, b, s), today + 1)
  }

  lemma CellsMore(raised: Cube, sum: Cube, done: map<nat, Cube>, date: nat, day: Cube, today: nat)
    requires CellsOfDays(sum, done, today) && date !in done && date <= today
    requires forall a, b, s :: Look3(raised, a, b, s) == Look3(sum, a, b, s) + Look3(day, a, b, s)
    ensures CellsOfDays(raised, done[date := day], today)
  {
    forall a, b, s ensures Look3(raised, a, b, s) == Before(Cells3(done[date := day], a, b, s), today + 1) {
      Cells3Add(done, date, day, a, b, s, today + 1);
    }
  }

  ghost predicate DayMentions(days: map<nat, Cube>, c: string) {
    exists d :: d in days && Mentions(days[d], c)
  }

  /** The sum mentions exactly the chains that some day mentions, and "*". */
  ghost predicate MentionsDays(sum: Cube, days: map<nat, Cube>) {
    forall c :: Mentions(sum, c) <==> c == ANY || DayMentions(days, c)
  }

  lemma DayMentionsMore(done: map<nat, Cube>, date: nat, day: Cube, c: string)
    requires date !in done
    ensures DayMentions(done[date := day], c) <==> DayMentions(done, c) || Mentions(day, c)
  {
    var more := done[date := day];
    if Mentions(day, c) { assert Mentions(more[date], c); }
    if d :| d in done && Mentions(done[d], c) { assert Mentions(more[d], c); }
    if d :| d in more && Mentions(more[d], c) { assert d == date || (d in done && Mentions(done[d], c)); }
  }

  lemma MentionsMore(raised: Cube, sum: Cube, done: map<nat, Cube>, date: nat, day: Cube)
    requires Rooted(sum) && NamesBoth(raised, sum, day) && MentionsDays(sum, done) && date !in done
    ensures MentionsDays(raised, done[date := day])
  {
    forall c ensures Mentions(raised, c) <==> c == ANY || DayMentions(done[date := day], c) {
      BothMention(raised, sum, day, c);
      DayMentionsMore(done, date, day, c);
    }
  }

  lemma NothingYet(today: nat)
    ensures Rooted(EMPTY_CUBE) && MentionsDays(EMPTY_CUBE, map[]) && CellsOfDays(EMPTY_CUBE, map[], today)
  {
    forall a, b, s ensures Look3(EMPTY_CUBE, a, b, s) == Before(Cells3(map[], a, b, s), today + 1) {
      assert Cells3(map[], a, b, s) == map[];
      BeforeEmpty(today + 1);
      assert Look(BLANK_LEAVING, b, s) == 0.0;
    }
    forall c ensures Mentions(EMPTY_CUBE, c) <==> c == ANY {}
  }

  /** Adds up the days, in any order. */
  method SumOfDays(days: map<nat, Cube>, today: nat) returns (sum: Cube)
    requires forall d <- days :: d <= today
    ensures Rooted(sum) && MentionsDays(sum, days) && CellsOfDays(sum, days, today)
  {
    sum := map[ANY := map[ANY := map[ANY := 0.0]]];
    assert sum == EMPTY_CUBE;
    var todo := days.Keys;
    ghost var done: map<nat, Cube> := map[];
    NothingYet(today);
    while todo != {}
      invariant todo <= days.Keys && Rooted(sum)
      invariant done.Keys == days.Keys - todo && forall d <- done :: done[d] == days[d]
      invariant MentionsDays(sum, done) && CellsOfDays(sum, done, today)
    {
      var date :| date in todo;
      todo := todo - {date};
      sum := AddOneDay(sum, done, date, days[date], today);
      done := done[date := days[date]];
    }
    assert done == days;
  }

  method AddOneDay(sum: Cube, ghost done: map<nat, Cube>, date: nat, day: Cube, ghost today: nat) returns (raised: Cube)
    requires Rooted(sum) && MentionsDays(sum, done) && CellsOfDays(sum, done, today) && date !in done && date <= today
    ensures Rooted(raised) && MentionsDays(raised, done[date := day]) && CellsOfDays(raised, done[date := day], today)
  {
    raised := AddCube(sum, day);
    MentionsMore(raised, sum, done, date, day);
    CellsMore(raised, sum, done, date, day, today);
  }

  /** The total over a period: the days are added in any order, then squared. */
  method TransferredSinceDate(days: map<nat, Cube>, today: nat) returns (result: Cube)
    requires forall d <- days :: d <= today
    ensures forall a <- result :: result[a].Keys == result.Keys
    ensures forall c :: c in result <==> c == ANY || DayMentions(days, c)
    ensures forall a, b, s :: Look3(result, a, b, s) == Before(Cells3(days, a, b, s), today + 1)
  {
    var sum := SumOfDays(days, today);
    result := SquarePad(sum);
    forall c ensures c in result <==> c == ANY || DayMentions(days, c) {
      SeenMentions(sum, c);
    }
  }

  /** Partition independence: the period total reads like one pass over all its rows,
      however the rows are split into days. */
  lemma CubePeriodEqualsOnePass(rows: seq<Row>, day: seq<nat>, days: map<nat, Cube>, today: nat,
                                a: string, b: string, s: string)
    requires |rows| == |day| && forall i :: 0 <= i < |day| ==> day[i] <= today
    requires forall d: nat :: d in days <==> d <= today
    requires forall d: nat :: d <= today ==>
               Look3(days[d], a, b, s) == Look3(CubeOf(OnDay(rows, day, d)), a, b, s)
    ensures Before(Cells3(days, a, b, s), today + 1) == Look3(CubeOf(rows), a, b, s)
  {
    var q := Cube(a, b, s);
    SplitIntoDays(q, rows, day, today + 1);
    forall d: nat | d <= today ensures Look3(days[d], a, b, s) == Total(q, OnDay(rows, day, d)) {
      CubeMeaning(OnDay(rows, day, d), a, b, s);
    }
    SameColumn(days, q, rows, day, today);
    CubeMeaning(rows, a, b, s);
  }

  lemma SameColumn(days: map<nat, Cube>, q: Query, rows: seq<Row>, day: seq<nat>, today: nat)
    requires q.Cube? && |rows| == |day| && forall d: nat :: d in days <==> d <= today
    requires forall d: nat :: d <= today ==> Look3(days[d], q.from, q.dest, q.sym) == Total(q, OnDay(rows, day, d))
    ensures Before(Cells3(days, q.from, q.dest, q.sym), today + 1) == Before(DayTotals(q, rows, day, today + 1), today + 1)
  {
    BeforeAgree(Cells3(days, q.from, q.dest, q.sym), DayTotals(q, rows, day, today + 1), today + 1);
  }
}
