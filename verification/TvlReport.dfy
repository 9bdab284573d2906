/** The daily report of locked value: notional amounts rounded to cents, chain totals and
    the daily total, and how far rounding lets these drift apart. */
module TvlReport {
  import opened Transfers
  import opened LockedValue

  // ----- rounding -----

  /** Nearest integer, halves away from zero. */
  function RoundHalfAway(x: real): int {
    if x >= 0.0 then (x + 0.5).Floor else -((-x + 0.5).Floor)
  }

  function RoundToCents(x: real): (r: real)
    ensures -0.005 <= r - x <= 0.005
    ensures (x >= 0.0 ==> r - x > -0.005) && (x < 0.0 ==> r - x < 0.005)
    ensures (r * 100.0).Floor as real == r * 100.0
    ensures x >= 0.0 ==> r >= 0.0
  {
    RoundHalfAway(x * 100.0) as real / 100.0
  }

  // ----- sums over maps, independent of order -----

  ghost function SumAll(m: map<string, real>): real
    decreases |m|
  {
    if m == map[] then 0.0
    else
      var k :| k in m;
      assert |m - {k}| < |m| by { Smaller(m, k); }
      m[k] + SumAll(m - {k})
  }

  lemma Smaller(m: map<string, real>, k: string)
    requires k in m
    ensures |m - {k}| == |m| - 1
  {
    assert (m - {k}).Keys == m.Keys - {k};
  }

  lemma {:induction false} SumRemove(m: map<string, real>, k: string)
    requires k in m
    ensures SumAll(m) == m[k] + SumAll(m - {k})
    decreases |m|
  {
    var j :| j in m && SumAll(m) == m[j] + SumAll(m - {j});
    if j != k {
      Smaller(m, j);
      Smaller(m, k);
      SumRemove(m - {j}, k);
      SumRemove(m - {k}, j);
      assert m - {j} - {k} == m - {k} - {j};
    }
  }

  lemma SumAdd(m: map<string, real>, k: string, x: real)
    requires k !in m
    ensures SumAll(m[k := x]) == SumAll(m) + x
  {
    SumRemove(m[k := x], k);
    assert m[k := x] - {k} == m;
  }

  /** Entries that are each off by at most half a cent add up to at most as many half cents. */
  lemma {:induction false} SumDrift(m: map<string, real>, r: map<string, real>)
    requires m.Keys == r.Keys
    requires forall k <- m :: -0.005 <= r[k] - m[k] <= 0.005
    ensures -0.005 * |m| as real <= SumAll(r) - SumAll(m) <= 0.005 * |m| as real
    decreases |m|
  {
    if m == map[] {
      assert r == map[];
    } else {
      var k :| k in m;
      SumRemove(m, k);
      SumRemove(r, k);
      Smaller(m, k);
      SumDrift(m - {k}, r - {k});
    }
  }

  // ----- the report -----

  function Worth(asset: LockedAsset): real {
    asset.amount * asset.price
  }

  function Priced(asset: LockedAsset): LockedAsset {
    asset.(notional := RoundToCents(Worth(asset)))
  }

  /** The tokens that are listed: not the total, not excluded, of positive value. */
  predicate Listed(tokens: Assets, a: string, skip: set<string>) {
    a in tokens && a != ANY && a !in skip && Worth(tokens[a]) > 0.0
  }

  /** Their exact values. */
  function Values(tokens: Assets, skip: set<string>): map<string, real> {
    map a | a in tokens && Listed(tokens, a, skip) :: Worth(tokens[a])
  }

  /** The notional entries of a reported chain other than its total. */
  function Entries(assets: Assets): map<string, real> {
    map a | a in assets && a != ANY :: assets[a].notional
  }

  /** A chain's entry before its total is rounded. */
  ghost predicate Reports(assets: Assets, tokens: Assets, skip: set<string>) {
    assets.Keys == Values(tokens, skip).Keys + {ANY}
    && (forall a <- Values(tokens, skip) ::
          assets[a] == Priced(tokens[a]))
  }

  const TOTAL := LockedAsset(ANY, "", "", "", 0.0, 0.0, 0.0)

  method ReportChain(tokens: Assets, skip: set<string>) returns (assets: Assets)
    ensures Reports(assets, tokens, skip)
    ensures assets[ANY] == TOTAL.(notional := ExactTotal(tokens, skip))
  {
    assets := map[ANY := TOTAL];
    ghost var exact: map<string, real> := map[];
    var todo := tokens.Keys;
    while todo != {}
      invariant todo <= tokens.Keys
      invariant forall a :: a in exact <==> a in tokens && a !in todo && Listed(tokens, a, skip)
      invariant forall a <- exact :: exact[a] == Worth(tokens[a])
      invariant assets.Keys == exact.Keys + {ANY}
      invariant forall a <- exact :: assets[a] == Priced(tokens[a])
      invariant assets[ANY] == TOTAL.(notional := SumAll(exact))
    {
      var symbol :| symbol in todo;
      todo := todo - {symbol};
      if symbol == ANY {
        continue;
      }
      if symbol in skip {
        continue;
      }
      var notional := Worth(tokens[symbol]);
      if notional <= 0.0 {
        continue;
      }
      SumAdd(exact, symbol, notional);
      exact := exact[symbol := notional];
      assets := ListAsset(assets, symbol, tokens[symbol]);
    }
    assert exact == Values(tokens, skip);
  }

  /** Enters one asset and adds its exact value to the chain's total. */
  method ListAsset(assets: Assets, symbol: string, asset: LockedAsset) returns (r: Assets)
    requires ANY in assets && symbol != ANY
    ensures r == assets[symbol := Priced(asset)]
                       [ANY := assets[ANY].(notional := assets[ANY].notional + Worth(asset))]
  {
    var notional := Worth(asset);
    r := assets[symbol := asset.(notional := RoundToCents(notional))];
    var allAssets := r[ANY];
    r := r[ANY := allAssets.(notional := allAssets.notional + notional)];
  }

  /** What a finished chain's entries say: a token is listed exactly if it is neither the total
      nor excluded and worth something, as amount times price, and then with its record and
      the nearest value in whole cents; the total is the nearest to the exact sum. */
  lemma ReportMeans(assets: Assets, tokens: Assets, skip: set<string>, a: string)
    requires ChainDone(assets, tokens, skip) && a != ANY
    ensures a in assets <==> a in tokens && a !in skip && tokens[a].amount * tokens[a].price > 0.0
    ensures a in assets ==>
              var cents := assets[a].notional * 100.0; var exact := tokens[a].amount * tokens[a].price;
              assets[a].(notional := tokens[a].notional) == tokens[a]
              && cents.Floor as real == cents && -0.005 <= assets[a].notional - exact <= 0.005
    ensures ANY in assets &&
              var exact := map b | b in tokens && b != ANY && b !in skip && tokens[b].amount * tokens[b].price > 0.0
                           :: tokens[b].amount * tokens[b].price;
              var cents := assets[ANY].notional * 100.0;
              cents.Floor as real == cents && -0.005 <= assets[ANY].notional - SumAll(exact) <= 0.005
              && assets[ANY].symbol == "*" && assets[ANY].amount == 0.0 && assets[ANY].price == 0.0
  {
    var exact := map b | b in tokens && b != ANY && b !in skip && tokens[b].amount * tokens[b].price > 0.0
                 :: tokens[b].amount * tokens[b].price;
    assert exact == Values(tokens, skip);
  }

  ghost function ExactTotal(tokens: Assets, skip: set<string>): real {
    SumAll(Values(tokens, skip))
  }

  /** Exact chain totals. */
  ghost function ChainValues(chains: LockedTable, skip: set<string>): map<string, real> {
    map c | c in chains && c != ANY :: ExactTotal(chains[c], skip)
  }

  /** Reported chain totals. */
  function ChainTotals(report: LockedTable): map<string, real> {
    map c | c in report && c != ANY && ANY in report[c] :: report[c][ANY].notional
  }

  /** A finished chain: its total is the rounded sum of the exact values. */
  ghost predicate ChainDone(assets: Assets, tokens: Assets, skip: set<string>) {
    Reports(assets, tokens, skip)
    && assets[ANY] == TOTAL.(notional := RoundToCents(ExactTotal(tokens, skip)))
  }

  /** One day: every chain but "*" is reported, and the daily total is the rounded sum of
      the exact chain totals. */
  method ReportDay(chains: LockedTable, skip: set<string>) returns (report: LockedTable)
    ensures report.Keys == chains.Keys + {ANY}
    ensures forall c <- chains :: c != ANY ==> ChainDone(report[c], chains[c], skip)
    ensures report[ANY] == map[ANY := TOTAL.(notional := RoundToCents(SumAll(ChainValues(chains, skip))))]
  {
    var chainReports, daily := ReportChains(chains, skip);
    report := chainReports[ANY := map[ANY := daily.(notional := RoundToCents(daily.notional))]];
  }

  /** The loop over the chains, accumulating the daily total. */
  method ReportChains(chains: LockedTable, skip: set<string>) returns (report: LockedTable, daily: LockedAsset)
    ensures report.Keys == chains.Keys - {ANY}
    ensures forall c <- report :: ChainDone(report[c], chains[c], skip)
    ensures daily == TOTAL.(notional := SumAll(ChainValues(chains, skip)))
  {
    report, daily := map[], TOTAL;
    ghost var exact: map<string, real> := map[];
    var todo := chains.Keys;
    assert SoFar(report, exact, daily, chains, skip);
    while todo != {}
      invariant todo <= chains.Keys
      invariant forall c :: c in report <==> c in chains && c !in todo && c != ANY
      invariant SoFar(report, exact, daily, chains, skip)
    {
      var chain :| chain in todo;
      todo := todo - {chain};
      if chain == ANY {
        continue;
      }
      report, daily, exact := AddReport(report, exact, daily, chains, chain, skip);
    }
    assert report.Keys == chains.Keys - {ANY};
    AreChainValues(exact, chains, skip);
  }

  /** The chains reported so far, and the daily total of their exact values. */
  ghost predicate SoFar(report: LockedTable, exact: map<string, real>, daily: LockedAsset, chains: LockedTable, skip: set<string>) {
    report.Keys == exact.Keys && report.Keys <= chains.Keys
    && (forall c <- report :: ChainDone(report[c], chains[c], skip))
    && (forall c <- exact :: exact[c] == ExactTotal(chains[c], skip))
    && daily == TOTAL.(notional := SumAll(exact))
  }

  method AddReport(report: LockedTable, ghost exact: map<string, real>, daily: LockedAsset, chains: LockedTable,
                   chain: string, skip: set<string>)
    returns (report': LockedTable, daily': LockedAsset, ghost exact': map<string, real>)
    requires SoFar(report, exact, daily, chains, skip) && chain in chains && chain !in report
    ensures SoFar(report', exact', daily', chains, skip) && report'.Keys == report.Keys + {chain}
  {
    var assets, total := FinishChain(chains[chain], skip);
    SumAdd(exact, chain, total);
    exact' := exact[chain := total];
    daily' := daily.(notional := daily.notional + total);
    report' := report[chain := assets];
  }

  lemma AreChainValues(exact: map<string, real>, chains: LockedTable, skip: set<string>)
    requires exact.Keys == chains.Keys - {ANY}
    requires forall c <- exact :: exact[c] == ExactTotal(chains[c], skip)
    ensures exact == ChainValues(chains, skip)
  {
  }

  /** One chain with its total rounded; the daily total is fed the exact one. */
  method FinishChain(tokens: Assets, skip: set<string>) returns (assets: Assets, total: real)
    ensures ChainDone(assets, tokens, skip) && total == ExactTotal(tokens, skip)
  {
    assets := ReportChain(tokens, skip);
    var allAssets := assets[ANY];
    total := allAssets.notional;
    assert ANY !in Values(tokens, skip);
    assets := assets[ANY := allAssets.(notional := RoundToCents(total))];
  }

  /** A chain's rounded total and the sum of its n rounded entries are at most
      half a cent times n + 1 apart. */
  lemma ChainDrift(assets: Assets, tokens: Assets, skip: set<string>)
    requires ChainDone(assets, tokens, skip)
    ensures var n := |Entries(assets)| as real;
      -0.005 * (n + 1.0) <= assets[ANY].notional - SumAll(Entries(assets)) <= 0.005 * (n + 1.0)
  {
    var exact := Values(tokens, skip);
    assert Entries(assets).Keys == exact.Keys;
    assert |exact| == |exact.Keys| && |Entries(assets)| == |Entries(assets).Keys|;
    SumDrift(exact, Entries(assets));
  }

  /** The daily total and the sum of the C rounded chain totals are at most half a cent
      times C + 1 apart. */
  lemma DayDrift(report: LockedTable, chains: LockedTable, skip: set<string>)
    requires report.Keys == chains.Keys + {ANY}
    requires forall c <- chains :: c != ANY ==> ChainDone(report[c], chains[c], skip)
    requires report[ANY] == map[ANY := TOTAL.(notional := RoundToCents(SumAll(ChainValues(chains, skip))))]
    ensures var n := |ChainTotals(report)| as real;
      -0.005 * (n + 1.0) <= report[ANY][ANY].notional - SumAll(ChainTotals(report)) <= 0.005 * (n + 1.0)
  {
    var exact, rounded := ChainValues(chains, skip), ChainTotals(report);
    assert rounded.Keys == exact.Keys;
    assert |exact| == |exact.Keys| && |rounded| == |rounded.Keys|;
    SumDrift(exact, rounded);
  }
}
