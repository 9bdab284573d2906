/** The four aggregate endpoints as instances of the day-cache protocol, and what their
    answers mean in every run. */
module Endpoints {
  import opened Options
  import opened Transfers
  import opened Tables
  import opened Cubes
  import opened DayCache
  import opened Transparency
  import opened Queried
  import LockedValue
  import Cumulative

  /** Amounts transferred to each chain. */
  function ToEndpoint(skip: set<nat>): Config<Row, Inner> {
    Config(ToTable, EMPTY_TO, BLANK, (t: Table) => t.Keys, (r: Row) => r.key, n => n > 1, n => n <= 1, skip)
  }

  /** Amounts transferred between chains. Its padding also collects destinations. */
  function CubeEndpoint(skip: set<nat>): Config<Row, Table> {
    Config(CubeOf, EMPTY_CUBE, BLANK_LEAVING, Seen, (r: Row) => r.key, n => n > 1, n => n == 1, skip)
  }

  /** Amounts received by address. Any cached table is reused. */
  function AddressEndpoint(skip: set<nat>): Config<Row, Inner> {
    Config(AddressTable, map[], map[], (t: Table) => t.Keys, (r: Row) => r.key, n => true, n => false, skip)
  }

  /** Balances locked on each chain. */
  function LockedEndpoint(skip: set<nat>, skipTokens: set<string>): Config<Row, LockedValue.Assets> {
    Config(rows => LockedValue.LockedOf(rows, skipTokens), map[], map[],
           (t: LockedValue.LockedTable) => t.Keys, (r: Row) => r.key, n => n > 1, n => n <= 1, skip)
  }

  // ----- what the tables say, cell by cell -----

  ghost predicate TotalsTo(t: Table, rows: seq<Row>) {
    forall c, sym :: Look(t, c, sym) == Total(To(c, sym), rows)
  }

  ghost predicate TotalsBetween(t: Cube, rows: seq<Row>) {
    forall a, b, sym :: Look3(t, a, b, sym) == Total(Cube(a, b, sym), rows)
  }

  /** The amounts, and the addresses there are. */
  ghost predicate TotalsByAddress(t: Table, rows: seq<Row>) {
    forall c, address :: Look(t, c, address) == Total(Address(c, address), rows)
                         && (Named(t, c, address) <==> Received(rows, c, address))
  }

  ghost predicate TotalsLocked(t: LockedValue.LockedTable, rows: seq<Row>, tokens: set<string>) {
    (forall c, a :: LockedValue.AmountAt(t, c, a) == Total(Locked(c, a, tokens), rows))
    && forall c, a, i: nat :: LockedValue.IsFirst(rows, i, c, a, tokens) ==>
         LockedValue.RecordAt(t, c, a)
         == Some(LockedValue.LockedAsset(rows[i].symbol, rows[i].name, a, rows[i].coinGeckoId, 0.0, 0.0, rows[i].price))
  }

  lemma SameTo(skip: set<nat>, t: Table, rows: seq<Row>)
    requires Same(ToEndpoint(skip), t, ToTable(rows))
    ensures TotalsTo(t, rows)
  {
    forall c, sym ensures Look(t, c, sym) == Total(To(c, sym), rows) {
      assert Entry(ToEndpoint(skip), t, c) == Entry(ToEndpoint(skip), ToTable(rows), c);
      SameEntrySameAmount(skip, t, ToTable(rows), c, sym);
      ToTableMeaning(rows, c, sym);
    }
  }

  lemma SameEntrySameAmount(skip: set<nat>, t: Table, u: Table, c: string, sym: string)
    requires Entry(ToEndpoint(skip), t, c) == Entry(ToEndpoint(skip), u, c)
    ensures Look(t, c, sym) == Look(u, c, sym)
  {
  }

  lemma SameCube(skip: set<nat>, t: Cube, rows: seq<Row>)
    requires Same(CubeEndpoint(skip), t, CubeOf(rows))
    ensures TotalsBetween(t, rows)
  {
    forall a, b, sym ensures Look3(t, a, b, sym) == Total(Cube(a, b, sym), rows) {
      assert Entry(CubeEndpoint(skip), t, a) == Entry(CubeEndpoint(skip), CubeOf(rows), a);
      SameEntrySameCell(skip, t, CubeOf(rows), a, b, sym);
      CubeMeaning(rows, a, b, sym);
    }
  }

  lemma SameEntrySameCell(skip: set<nat>, u: Cube, v: Cube, a: string, b: string, sym: string)
    requires Entry(CubeEndpoint(skip), u, a) == Entry(CubeEndpoint(skip), v, a)
    ensures Look3(u, a, b, sym) == Look3(v, a, b, sym)
  {
    assert Look(BLANK_LEAVING, b, sym) == 0.0;
  }

  lemma SameAddress(skip: set<nat>, t: Table, rows: seq<Row>)
    requires Same(AddressEndpoint(skip), t, AddressTable(rows))
    ensures TotalsByAddress(t, rows)
  {
    forall c, address
      ensures Look(t, c, address) == Total(Address(c, address), rows)
      ensures Named(t, c, address) <==> Received(rows, c, address)
    {
      SameAddressNames(skip, t, rows, c, address);
      assert Entry(AddressEndpoint(skip), t, c) == Entry(AddressEndpoint(skip), AddressTable(rows), c);
      AddressTableMeaning(rows, c, address);
    }
  }

  lemma SameAddressNames(skip: set<nat>, t: Table, rows: seq<Row>, c: string, a: string)
    requires Same(AddressEndpoint(skip), t, AddressTable(rows))
    ensures Named(t, c, a) <==> Received(rows, c, a)
  {
    assert Entry(AddressEndpoint(skip), t, c) == Entry(AddressEndpoint(skip), AddressTable(rows), c);
    AddressTableNames(rows, c, a);
  }

  lemma SameLocked(skip: set<nat>, tokens: set<string>, t: LockedValue.LockedTable, rows: seq<Row>)
    requires Same(LockedEndpoint(skip, tokens), t, LockedValue.LockedOf(rows, tokens))
    ensures TotalsLocked(t, rows, tokens)
  {
    forall c, a ensures LockedValue.AmountAt(t, c, a) == Total(Locked(c, a, tokens), rows) {
      SameEntrySameToken(skip, tokens, t, rows, c, a);
      LockedValue.LockedMeaning(rows, tokens, c, a);
    }
    forall c, a, i: nat | LockedValue.IsFirst(rows, i, c, a, tokens)
      ensures LockedValue.RecordAt(t, c, a)
           == Some(LockedValue.LockedAsset(rows[i].symbol, rows[i].name, a, rows[i].coinGeckoId, 0.0, 0.0, rows[i].price))
    {
      SameEntrySameToken(skip, tokens, t, rows, c, a);
      LockedValue.LockedRecords(rows, tokens, c, a);
    }
  }

  lemma SameEntrySameToken(
    skip: set<nat>, tokens: set<string>, t: LockedValue.LockedTable, rows: seq<Row>, c: string, a: string)
    requires Same(LockedEndpoint(skip, tokens), t, LockedValue.LockedOf(rows, tokens))
    ensures LockedValue.AmountAt(t, c, a) == LockedValue.AmountAt(LockedValue.LockedOf(rows, tokens), c, a)
    ensures LockedValue.RecordAt(t, c, a) == LockedValue.RecordAt(LockedValue.LockedOf(rows, tokens), c, a)
  {
    assert Entry(LockedEndpoint(skip, tokens), t, c)
        == Entry(LockedEndpoint(skip, tokens), LockedValue.LockedOf(rows, tokens), c);
  }

  // ----- what answers say, in every run, in terms of the rows held -----

  ghost predicate AnswersTo(t: Table, p: string, rows: seq<Row>) {
    forall c, sym :: Look(t, c, sym) == TotalUnder(To(c, sym), p, rows)
  }

  ghost predicate AnswersBetween(t: Cube, p: string, rows: seq<Row>) {
    forall a, b, sym :: Look3(t, a, b, sym) == TotalUnder(Cube(a, b, sym), p, rows)
  }

  /** The amounts, and the addresses there are. */
  ghost predicate AnswersByAddress(t: Table, p: string, rows: seq<Row>) {
    forall c, address :: Look(t, c, address) == TotalUnder(Address(c, address), p, rows)
      && (Named(t, c, address) <==>
            exists r <- rows :: p <= r.key && r.destination == c && r.destinationAddress == address)
  }

  /** Row `i` is the first one of the token whose key starts with the prefix. */
  ghost predicate IsFirstUnder(rows: seq<Row>, i: nat, p: string, c: string, a: string, tokens: set<string>) {
    i < |rows| && p <= rows[i].key && OfToken(rows[i], c, a, tokens)
    && forall j :: 0 <= j < i ==> !(p <= rows[j].key && OfToken(rows[j], c, a, tokens))
  }

  /** The balances, and each token's record: that of its first row. */
  ghost predicate AnswersLocked(t: LockedValue.LockedTable, p: string, rows: seq<Row>, tokens: set<string>) {
    (forall c, a :: LockedValue.AmountAt(t, c, a) == TotalUnder(Locked(c, a, tokens), p, rows))
    && forall c, a, i: nat :: IsFirstUnder(rows, i, p, c, a, tokens) ==>
         LockedValue.RecordAt(t, c, a)
         == Some(LockedValue.LockedAsset(rows[i].symbol, rows[i].name, a, rows[i].coinGeckoId, 0.0, 0.0, rows[i].price))
  }

  lemma MeansTo(skip: set<nat>, t: Table, p: string, rows: seq<Row>)
    requires TotalsTo(t, WithPrefix(ToEndpoint(skip), rows, p))
    ensures AnswersTo(t, p, rows)
  {
    forall c, sym ensures Look(t, c, sym) == TotalUnder(To(c, sym), p, rows) {
      QueriedTotal(ToEndpoint(skip), To(c, sym), p, rows);
    }
  }

  lemma MeansBetween(skip: set<nat>, t: Cube, p: string, rows: seq<Row>)
    requires TotalsBetween(t, WithPrefix(CubeEndpoint(skip), rows, p))
    ensures AnswersBetween(t, p, rows)
  {
    forall a, b, sym ensures Look3(t, a, b, sym) == TotalUnder(Cube(a, b, sym), p, rows) {
      QueriedTotal(CubeEndpoint(skip), Cube(a, b, sym), p, rows);
    }
  }

  lemma MeansByAddress(skip: set<nat>, t: Table, p: string, rows: seq<Row>)
    requires TotalsByAddress(t, WithPrefix(AddressEndpoint(skip), rows, p))
    ensures AnswersByAddress(t, p, rows)
  {
    forall c, address
      ensures Look(t, c, address) == TotalUnder(Address(c, address), p, rows)
      ensures Named(t, c, address) <==>
                exists r <- rows :: p <= r.key && r.destination == c && r.destinationAddress == address
    {
      QueriedTotal(AddressEndpoint(skip), Address(c, address), p, rows);
      QueriedAddress(skip, rows, p, c, address);
    }
  }

  lemma QueriedAddress(skip: set<nat>, rows: seq<Row>, p: string, c: string, address: string)
    ensures Received(WithPrefix(AddressEndpoint(skip), rows, p), c, address) <==>
              exists r <- rows :: p <= r.key && r.destination == c && r.destinationAddress == address
  {
    var found := WithPrefix(AddressEndpoint(skip), rows, p);
    forall r ensures r in found <==> p <= r.key && r in rows {
      WithPrefixExact(AddressEndpoint(skip), rows, p, r);
      assert r in found <==> multiset(found)[r] > 0;
      assert r in rows <==> multiset(rows)[r] > 0;
    }
  }

  lemma {:induction false} FirstQueried(
    skip: set<nat>, tokens: set<string>, rows: seq<Row>, i: nat, p: string, c: string, a: string)
    requires IsFirstUnder(rows, i, p, c, a, tokens)
    ensures exists k: nat ::
      LockedValue.IsFirst(WithPrefix(LockedEndpoint(skip, tokens), rows, p), k, c, a, tokens)
      && WithPrefix(LockedEndpoint(skip, tokens), rows, p)[k] == rows[i]
  {
    var cfg := LockedEndpoint(skip, tokens);
    var before := WithPrefix(cfg, rows[..i], p);
    var all := WithPrefix(cfg, rows, p);
    assert rows == rows[..i] + ([rows[i]] + rows[i + 1..]);
    WithPrefixAppend(cfg, rows[..i], [rows[i]] + rows[i + 1..], p);
    WithPrefixAppend(cfg, [rows[i]], rows[i + 1..], p);
    OneRow(cfg, rows[i], p);
    assert all == before + ([rows[i]] + WithPrefix(cfg, rows[i + 1..], p));
    forall j | 0 <= j < |before| ensures !OfToken(all[j], c, a, tokens) {
      assert all[j] == before[j] && before[j] in before;
      WithPrefixExact(cfg, rows[..i], p, before[j]);
      assert multiset(before)[before[j]] > 0;
      assert before[j] in rows[..i];
    }
    assert all[|before|] == rows[i];
    assert LockedValue.IsFirst(all, |before|, c, a, tokens);
  }

  lemma MeansLocked(skip: set<nat>, tokens: set<string>, t: LockedValue.LockedTable, p: string, rows: seq<Row>)
    requires TotalsLocked(t, WithPrefix(LockedEndpoint(skip, tokens), rows, p), tokens)
    ensures AnswersLocked(t, p, rows, tokens)
  {
    var cfg := LockedEndpoint(skip, tokens);
    forall c, a ensures LockedValue.AmountAt(t, c, a) == TotalUnder(Locked(c, a, tokens), p, rows) {
      QueriedTotal(cfg, Locked(c, a, tokens), p, rows);
    }
    forall c, a, i: nat | IsFirstUnder(rows, i, p, c, a, tokens)
      ensures LockedValue.RecordAt(t, c, a)
           == Some(LockedValue.LockedAsset(rows[i].symbol, rows[i].name, a, rows[i].coinGeckoId, 0.0, 0.0, rows[i].price))
    {
      FirstQueried(skip, tokens, rows, i, p, c, a);
    }
  }

  /** Each answer is right for some prefix whose answers may be in the request's cache, and
      for the request's own unless "" and "*" are mixed. */
  lemma ToAnswers(skip: set<nat>, sc: Scope, s0: State<Row, Inner>, run: seq<Action<Row>>, i: nat, d: nat)
    requires Answered(ToEndpoint(skip), sc, s0, run, i, d)
    ensures var s := Run(ToEndpoint(skip), s0, run);
      exists q :: Serves(sc, CachePrefix(s.requests[i].prefix), q) && AnswersTo(AnswerTable(s, i, d), q, Held(s, i, d))
    ensures var s := Run(ToEndpoint(skip), s0, run);
      Unmixed(sc) ==> AnswersTo(AnswerTable(s, i, d), s.requests[i].prefix, Held(s, i, d))
  {
    var cfg := ToEndpoint(skip);
    CacheTransparency(cfg, sc, s0, run, i, d);
    var s := Run(cfg, s0, run);
    forall q | AnswersFor(cfg, s, i, d, q) ensures AnswersTo(AnswerTable(s, i, d), q, Held(s, i, d)) {
      SameTo(skip, AnswerTable(s, i, d), Due(cfg, s, i, d, q));
      MeansTo(skip, AnswerTable(s, i, d), q, Held(s, i, d));
    }
  }

  lemma CubeAnswers(skip: set<nat>, sc: Scope, s0: State<Row, Table>, run: seq<Action<Row>>, i: nat, d: nat)
    requires Answered(CubeEndpoint(skip), sc, s0, run, i, d)
    ensures var s := Run(CubeEndpoint(skip), s0, run);
      exists q :: Serves(sc, CachePrefix(s.requests[i].prefix), q) && AnswersBetween(AnswerTable(s, i, d), q, Held(s, i, d))
    ensures var s := Run(CubeEndpoint(skip), s0, run);
      Unmixed(sc) ==> AnswersBetween(AnswerTable(s, i, d), s.requests[i].prefix, Held(s, i, d))
  {
    var cfg := CubeEndpoint(skip);
    CacheTransparency(cfg, sc, s0, run, i, d);
    var s := Run(cfg, s0, run);
    forall q | AnswersFor(cfg, s, i, d, q) ensures AnswersBetween(AnswerTable(s, i, d), q, Held(s, i, d)) {
      SameCube(skip, AnswerTable(s, i, d), Due(cfg, s, i, d, q));
      MeansBetween(skip, AnswerTable(s, i, d), q, Held(s, i, d));
    }
  }

  lemma AddressAnswers(skip: set<nat>, sc: Scope, s0: State<Row, Inner>, run: seq<Action<Row>>, i: nat, d: nat)
    requires Answered(AddressEndpoint(skip), sc, s0, run, i, d)
    ensures var s := Run(AddressEndpoint(skip), s0, run);
      exists q :: Serves(sc, CachePrefix(s.requests[i].prefix), q) && AnswersByAddress(AnswerTable(s, i, d), q, Held(s, i, d))
    ensures var s := Run(AddressEndpoint(skip), s0, run);
      Unmixed(sc) ==> AnswersByAddress(AnswerTable(s, i, d), s.requests[i].prefix, Held(s, i, d))
  {
    var cfg := AddressEndpoint(skip);
    CacheTransparency(cfg, sc, s0, run, i, d);
    var s := Run(cfg, s0, run);
    forall q | AnswersFor(cfg, s, i, d, q) ensures AnswersByAddress(AnswerTable(s, i, d), q, Held(s, i, d)) {
      SameAddress(skip, AnswerTable(s, i, d), Due(cfg, s, i, d, q));
      MeansByAddress(skip, AnswerTable(s, i, d), q, Held(s, i, d));
    }
  }

  lemma LockedAnswers(skip: set<nat>, tokens: set<string>, sc: Scope, s0: State<Row, LockedValue.Assets>, run: seq<Action<Row>>, i: nat, d: nat)
    requires Answered(LockedEndpoint(skip, tokens), sc, s0, run, i, d)
    ensures var s := Run(LockedEndpoint(skip, tokens), s0, run);
      exists q :: Serves(sc, CachePrefix(s.requests[i].prefix), q) && AnswersLocked(AnswerTable(s, i, d), q, Held(s, i, d), tokens)
    ensures var s := Run(LockedEndpoint(skip, tokens), s0, run);
      Unmixed(sc) ==> AnswersLocked(AnswerTable(s, i, d), s.requests[i].prefix, Held(s, i, d), tokens)
  {
    var cfg := LockedEndpoint(skip, tokens);
    CacheTransparency(cfg, sc, s0, run, i, d);
    var s := Run(cfg, s0, run);
    forall q | AnswersFor(cfg, s, i, d, q) ensures AnswersLocked(AnswerTable(s, i, d), q, Held(s, i, d), tokens) {
      SameLocked(skip, tokens, AnswerTable(s, i, d), Due(cfg, s, i, d, q));
      MeansLocked(skip, tokens, AnswerTable(s, i, d), q, Held(s, i, d));
    }
  }

  /** The day tables of a request. */
  function Answers<V>(s: State<Row, V>, i: nat): map<nat, map<string, V>>
    requires i < |s.requests|
  {
    map d: nat | s.requests[i].first <= d <= s.requests[i].now :: AnswerTable(s, i, d)
  }

  /** A returned request hands the running-total loop days that are padded as it needs. */
  lemma ReturnedAmountsPadded(skip: set<nat>, s0: State<Row, Inner>, run: seq<Action<Row>>, i: nat)
    requires Init(ToEndpoint(skip), EVERY, s0)
    requires var s := Run(ToEndpoint(skip), s0, run); i < |s.requests| && s.requests[i].stage.Returned?
    ensures Cumulative.Padded(Answers(Run(ToEndpoint(skip), s0, run), i))
  {
    var cfg := ToEndpoint(skip);
    var s := Run(cfg, s0, run);
    var days := Answers(s, i);
    forall d | d in days ensures Cumulative.NamesAll(days, d) {
      forall e <- days, c, sym | c !in days[d] ensures Look(days[e], c, sym) == 0.0 {
        ReturnedDaysShareChains(cfg, s0, run, i, e, d, c);
        assert Entry(cfg, days[e], c) == BLANK;
      }
    }
  }

  /** A returned request for addresses hands over days that name what any of them names, so
      that running totals name every address so far. */
  lemma ReturnedAddressesPadded(skip: set<nat>, s0: State<Row, Inner>, run: seq<Action<Row>>, i: nat)
    requires Init(AddressEndpoint(skip), EVERY, s0)
    requires var s := Run(AddressEndpoint(skip), s0, run); i < |s.requests| && s.requests[i].stage.Returned?
    ensures var days := Answers(Run(AddressEndpoint(skip), s0, run), i);
      forall d <- days :: Cumulative.NoAddressMissed(days, d)
  {
    var cfg := AddressEndpoint(skip);
    var days := Answers(Run(cfg, s0, run), i);
    forall d <- days ensures Cumulative.NoAddressMissed(days, d) {
      forall e <- days, c, a | c !in days[d] ensures !Named(days[e], c, a) {
        ReturnedDaysShareChains(cfg, s0, run, i, e, d, c);
        assert Entry(cfg, days[e], c) == map[];
      }
    }
  }

  lemma ReturnedLockedPadded(skip: set<nat>, tokens: set<string>, s0: State<Row, LockedValue.Assets>,
                             run: seq<Action<Row>>, i: nat)
    requires Init(LockedEndpoint(skip, tokens), EVERY, s0)
    requires var s := Run(LockedEndpoint(skip, tokens), s0, run); i < |s.requests| && s.requests[i].stage.Returned?
    ensures LockedValue.Padded(Answers(Run(LockedEndpoint(skip, tokens), s0, run), i))
  {
    var cfg := LockedEndpoint(skip, tokens);
    var s := Run(cfg, s0, run);
    var days := Answers(s, i);
    forall d | d in days ensures LockedValue.NamesAll(days, d) {
      forall e <- days, c | c !in days[d] && c in days[e] ensures days[e][c] == map[] {
        ReturnedDaysShareChains(cfg, s0, run, i, e, d, c);
        assert Entry(cfg, days[e], c) == map[];
      }
    }
  }

  // ----- mixing "" and "*" -----

  /** One transfer of value one, as the table keys it. */
  const ONE := Row("1:00:0000000000000000", "A", "A", "0x", 1.0, "a", "1", "1", "2", "0y", 1.0, 1.0)

  /** At every daily endpoint that takes a prefix, answers are independent of the cache
      exactly when "" and "*" are not mixed. */
  lemma EndpointsTransparentIff(skip: set<nat>, sc: Scope)
    ensures Transparent(ToEndpoint(skip), sc) <==> Unmixed(sc)
    ensures Transparent(CubeEndpoint(skip), sc) <==> Unmixed(sc)
    ensures Transparent(AddressEndpoint(skip), sc) <==> Unmixed(sc)
  {
    OneTellsTo(skip);
    TransparentIff(ToEndpoint(skip), sc, ONE, map[ANY := BLANK, "2" := BLANK]);
    OneTellsCube(skip);
    TransparentIff(CubeEndpoint(skip), sc, ONE, map[ANY := BLANK_LEAVING, "2" := BLANK_LEAVING]);
    OneTellsAddress(skip);
    TransparentIff(AddressEndpoint(skip), sc, ONE, map[]);
  }

  lemma OneTellsTo(skip: set<nat>)
    ensures Telling(ToEndpoint(skip), ONE, map[ANY := BLANK, "2" := BLANK])
  {
    var cfg := ToEndpoint(skip);
    OneTable();
    assert Entry(cfg, ToTable([ONE]), "2")[ANY] == 1.0 && Entry(cfg, ToTable([]), "2") == BLANK by {
      assert "2"[0] != ANY[0];
    }
    PaddedTwo<Inner>(BLANK);
  }

  /** An empty table padded with chain 2. */
  lemma PaddedTwo<V(!new)>(blank: V)
    ensures |map[ANY := blank, "2" := blank]| == 2
  {
    var padded := map[ANY := blank, "2" := blank];
    assert "2"[0] != ANY[0];
    assert padded.Keys == {ANY, "2"};
    assert |padded| == |padded.Keys|;
  }

  lemma OneTellsCube(skip: set<nat>)
    ensures Telling(CubeEndpoint(skip), ONE, map[ANY := BLANK_LEAVING, "2" := BLANK_LEAVING])
  {
    OneCube();
    PaddedTwo<Table>(BLANK_LEAVING);
    OneCubeShows(skip);
    assert ONE.key[0] != ANY[0];
    assert "2"[0] != ANY[0];
  }

  lemma OneCube()
    ensures |CubeOf([ONE])| > 1 && Look3(CubeOf([ONE]), "1", "2", "A") == 1.0
  {
    var u := CubeOf([ONE]);
    assert "2"[0] != ANY[0] && "1"[0] != ANY[0] && "A"[0] != ANY[0];
    CubeMeaning([ONE], "1", "2", "A");
    assert [ONE][..0] == [];
    assert Total(Cube("1", "2", "A"), [ONE]) == Total(Cube("1", "2", "A"), []) + Weight(Cube("1", "2", "A"), ONE);
    TwoKeys(u.Keys, ANY, "1");
    assert |u| == |u.Keys|;
  }

  lemma OneCubeShows(skip: set<nat>)
    ensures !Same(CubeEndpoint(skip), CubeOf([ONE]), CubeOf([]))
  {
    OneCube();
    if Same(CubeEndpoint(skip), CubeOf([ONE]), CubeOf([])) {
      SameCube(skip, CubeOf([ONE]), []);
    }
  }

  lemma TwoKeys(keys: set<string>, a: string, b: string)
    requires a in keys && b in keys && a != b
    ensures |keys| > 1
  {
    assert |keys - {a}| > 0 by { assert b in keys - {a}; }
  }

  lemma OneTellsAddress(skip: set<nat>)
    ensures Telling(AddressEndpoint(skip), ONE, map[])
  {
    var cfg := AddressEndpoint(skip);
    var t := AddressTable([ONE]);
    assert ONE.key[0] != "*"[0];
    assert [ONE][..0] == [] && t == map["2" := map["0y" := 1.0]];
    assert Entry(cfg, t, "2") == map["0y" := 1.0] && Entry(cfg, AddressTable([]), "2") == map[];
  }

  /** After a query for "", a query for "*" is given its table: the total reads one although
      no key starts with "*". */
  lemma StarQueryLeaks()
    ensures var cfg := ToEndpoint({});
      var s := Run(cfg, Cold(0, ONE), FirstRequest("", 0) + [Begin("*", 0), Check(1, 0)]);
      Has(s, 1, 0) && s.workers[(1, 0)].Done? && s.requests[1].prefix == "*"
      && Look(AnswerTable(s, 1, 0), ANY, ANY) == 1.0 && Total(To(ANY, ANY), RowsFor(cfg, s, "*", 0)) == 0.0
  {
    var cfg := ToEndpoint({});
    OneRow(cfg, ONE, "");
    OneRow(cfg, ONE, "*");
    OneTable();
    SecondRequestHits(cfg, 0, ONE, "", "*");
  }

  lemma OneTable()
    ensures ToTable([ONE]).Keys == {ANY, "2"} && |ToTable([ONE])| == 2 && !("*" <= ONE.key)
    ensures Look(ToTable([ONE]), ANY, ANY) == 1.0 && Total(To(ANY, ANY), []) == 0.0
    ensures ToTable([ONE])["2"][ANY] == 1.0
  {
    var t := ToTable([ONE]);
    assert [ONE][..0] == [] && t == ToStep(EMPTY_TO, ONE);
    assert "2"[0] != ANY[0] && ONE.key[0] != ANY[0];
    assert t.Keys == {ANY, "2"};
    assert |t| == |t.Keys|;
  }

  /** After a query for "*", the unrestricted query is given its empty table: the day's
      transfer is lost. */
  lemma UnrestrictedQueryLosesDay()
    ensures var cfg := AddressEndpoint({});
      var s := Run(cfg, Cold(0, ONE), FirstRequest("*", 0) + [Begin("", 0), Check(1, 0)]);
      Has(s, 1, 0) && s.workers[(1, 0)].Done? && s.requests[1].prefix == ""
      && Look(AnswerTable(s, 1, 0), "2", "0y") == 0.0 && Total(Address("2", "0y"), RowsFor(cfg, s, "", 0)) == 1.0
  {
    var cfg := AddressEndpoint({});
    OneTellsAddress({});
    OneRow(cfg, ONE, "");
    OneRow(cfg, ONE, "*");
    SecondRequestHits(cfg, 0, ONE, "*", "");
    OneByAddress();
  }

  lemma OneByAddress()
    ensures Look(AddressTable([]), "2", "0y") == 0.0 && Total(Address("2", "0y"), [ONE]) == 1.0
  {
    assert [ONE][..0] == [];
    assert Total(Address("2", "0y"), [ONE]) == Total(Address("2", "0y"), []) + Weight(Address("2", "0y"), ONE);
  }
}
