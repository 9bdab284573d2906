/** Tables that are shared by reference between results and caches. */
module SharedTables {
  import opened Tables

  class DayTable {
    var cells: Table

    constructor (cells: Table)
      ensures this.cells == cells
    {
      this.cells := cells;
    }

    /** Padding: names the chain if the table does not. No cell reads differently. */
    method Pad(chain: string, blank: Inner)
      requires ReadsZero(blank)
      modifies this
      ensures cells.Keys == old(cells.Keys) + {chain}
      ensures forall c, s :: Look(cells, c, s) == old(Look(cells, c, s))
    {
      if chain !in cells {
        cells := cells[chain := blank];
      }
    }
  }

  ghost function View(days: map<nat, DayTable>): map<nat, Table>
    reads days.Values
  {
    map d | d in days :: days[d].cells
  }
}

/** Running totals by day, with their own cache. */
module Cumulative {
  import opened Transfers
  import opened DaySums
  import opened Tables
  import opened SharedTables

  /** How an endpoint keeps running totals: the table and the inner map it starts from, the
      days for which its cache is overridden, and whether such days are stored again. */
  datatype Setup = Setup(start: Table, blank: Inner, override: set<nat>, overwrite: bool)

  function ToTotals(override: set<nat>): Setup { Setup(EMPTY_TO, BLANK, override, false) }
  function AddressTotals(override: set<nat>): Setup { Setup(map[], map[], override, true) }

  ghost predicate Empty(k: Setup) {
    ReadsZero(k.blank) && forall c, s :: Look(k.start, c, s) == 0.0
  }

  /** A running total up to and including day `d` reads right. */
  ghost predicate RunsTo(t: Table, days: map<nat, Table>, d: nat) {
    forall c, s :: Look(t, c, s) == Before(Cells(days, c, s), d + 1)
  }

  /** A chain that day `d` does not name has nothing on any day. */
  ghost predicate NamesAll(days: map<nat, Table>, d: nat)
    requires d in days
  {
    forall e <- days, c, s | c !in days[d] :: Look(days[e], c, s) == 0.0
  }

  /** Every day names every chain that has something on any day. */
  ghost predicate Padded(days: map<nat, Table>) {
    forall d {:trigger NamesAll(days, d)} :: d in days ==> NamesAll(days, d)
  }

  // ----- one day -----

  /** The previous total plus the day, over the union of the symbols, on top of `base`. */
  function MergeInner(base: Inner, prev: Inner, day: Inner): Inner {
    map s | s in base.Keys + prev.Keys + day.Keys ::
      if s in prev || s in day then Get(prev, s) + Get(day, s) else base[s]
  }

  function OrElse(t: Table, c: string, default: Inner): Inner {
    if c in t then t[c] else default
  }

  /** The day's chains only, on top of the initial table. */
  function Accumulate(k: Setup, prev: Table, day: Table): Table {
    map c | c in k.start.Keys + day.Keys ::
      if c in day then AccumulatedChain(k, prev, day, c) else k.start[c]
  }

  lemma MergeMeaning(base: Inner, prev: Inner, day: Inner, s: string)
    requires Get(base, s) == 0.0
    ensures Get(MergeInner(base, prev, day), s) == Get(prev, s) + Get(day, s)
  {
  }

  lemma AccumulateMeaning(k: Setup, prev: Table, day: Table, c: string, s: string)
    requires Empty(k)
    ensures Look(Accumulate(k, prev, day), c, s)
         == if c in day then Look(prev, c, s) + Look(day, c, s) else 0.0
  {
    assert Look(k.start, c, s) == 0.0;
    if c in day {
      MergeMeaning(OrElse(k.start, c, k.blank), OrElse(prev, c, map[]), day[c], s);
    }
  }

  method MergeSymbols(base: Inner, prev: Inner, day: Inner) returns (m: Inner)
    ensures m == MergeInner(base, prev, day)
  {
    m := base;
    var todo := prev.Keys + day.Keys;
    while todo != {}
      invariant todo <= prev.Keys + day.Keys
      invariant forall s :: s in m <==> s in base || ((s in prev || s in day) && s !in todo)
      invariant forall s <- m ::
          m[s] == if (s in prev || s in day) && s !in todo then Get(prev, s) + Get(day, s) else base[s]
    {
      var symbol :| symbol in todo;
      todo := todo - {symbol};
      var thisDayAmount := 0.0;
      if symbol in day {
        thisDayAmount := day[symbol];
      }
      var prevDayAmount := 0.0;
      if symbol in prev {
        prevDayAmount := prev[symbol];
      }
      m := m[symbol := prevDayAmount + thisDayAmount];
    }
  }

  /** What the loop puts under one of the day's chains. */
  function AccumulatedChain(k: Setup, prev: Table, day: Table, c: string): Inner
    requires c in day
  {
    MergeInner(OrElse(k.start, c, k.blank), OrElse(prev, c, map[]), day[c])
  }

  lemma IsAccumulated(k: Setup, prev: Table, day: Table, t: Table)
    requires t.Keys == k.start.Keys + day.Keys
    requires forall c <- t ::
      t[c] == if c in day then AccumulatedChain(k, prev, day, c) else k.start[c]
    ensures t == Accumulate(k, prev, day)
  {
  }

  method AccumulateDay(k: Setup, prev: Table, day: Table) returns (t: Table)
    ensures t.Keys == k.start.Keys + day.Keys
    ensures forall c <- t ::
      t[c] == if c in day then AccumulatedChain(k, prev, day, c) else k.start[c]
  {
    t := k.start;
    var todo := day.Keys;
    while todo != {}
      invariant todo <= day.Keys
      invariant t.Keys == k.start.Keys + (day.Keys - todo)
      invariant forall c <- t ::
          t[c] == if c in day && c !in todo then AccumulatedChain(k, prev, day, c) else k.start[c]
    {
      var chain :| chain in todo;
      todo := todo - {chain};
      var merged := AccumulateChain(if chain in t then t[chain] else k.blank, prev, day, chain);
      t := t[chain := merged];
    }
  }

  method AccumulateChain(base: Inner, prev: Table, day: Table, chain: string) returns (m: Inner)
    requires chain in day
    ensures m == MergeInner(base, OrElse(prev, chain, map[]), day[chain])
  {
    m := MergeSymbols(base, if chain in prev then prev[chain] else map[], day[chain]);
  }

  // ----- what makes the running total right -----

  predicate Cached(k: Setup, warm: map<nat, Table>, d: nat) {
    d in warm && d !in k.override
  }

  predicate Days(days: map<nat, Table>, first: nat, d: nat) {
    first <= d && forall e :: first <= e <= d ==> e in days
  }

  /** What the date loop puts under day `d`: the cached table, the first day's own, or the
      previous total moved on by the day. */
  function Running(k: Setup, days: map<nat, Table>, warm: map<nat, Table>, first: nat, d: nat): Table
    requires Days(days, first, d)
    decreases d
  {
    if Cached(k, warm, d) then warm[d]
    else if d == first then days[first]
    else Accumulate(k, Running(k, days, warm, first, d - 1), days[d])
  }

  ghost predicate AllRunTo(tables: map<nat, Table>, days: map<nat, Table>) {
    forall d <- tables :: RunsTo(tables[d], days, d)
  }

  /** A chain idle on day `e` has no history before it. */
  ghost predicate IdleMeansNew(days: map<nat, Table>, e: nat)
    requires e in days
  {
    forall c, s | c !in days[e] :: Before(Cells(days, c, s), e) == 0.0
  }

  lemma NothingBefore(days: map<nat, Table>, first: nat, c: string, s: string)
    requires forall e <- days :: first <= e
    ensures Before(Cells(days, c, s), first) == 0.0
  {
    BeforeAgree(Cells(days, c, s), map[], first);
    BeforeEmpty(first);
  }

  /** The loop is right on day `e`. */
  ghost predicate RightOn(k: Setup, days: map<nat, Table>, warm: map<nat, Table>, first: nat, e: nat)
    requires Days(days, first, e)
  {
    RunsTo(Running(k, days, warm, first, e), days, e)
  }

  ghost predicate AllRight(k: Setup, days: map<nat, Table>, warm: map<nat, Table>, first: nat, d: nat)
    requires Days(days, first, d)
  {
    forall e: nat | first <= e <= d :: RightOn(k, days, warm, first, e)
  }

  ghost predicate AllIdleNew(k: Setup, days: map<nat, Table>, warm: map<nat, Table>, first: nat, d: nat)
    requires Days(days, first, d)
  {
    forall e: nat | first < e <= d && !Cached(k, warm, e) :: IdleMeansNew(days, e)
  }

  /** Exactly when the loop is right on every day, whatever days are cached: no chain is
      missing from a day that is not cached after having had amounts. Since only the day's
      own chains are visited, this is what padding is for. */
  lemma {:induction false} RunningRightIff(k: Setup, days: map<nat, Table>, warm: map<nat, Table>, first: nat, d: nat)
    requires Days(days, first, d) && (forall e <- days :: first <= e) && Empty(k) && AllRunTo(warm, days)
    ensures AllRight(k, days, warm, first, d) <==> AllIdleNew(k, days, warm, first, d)
    decreases d
  {
    if d == first {
      FirstDayRight(days, first);
      assert RightOn(k, days, warm, first, first);
    } else {
      RunningRightIff(k, days, warm, first, d - 1);
      OneMoreRight(k, days, warm, first, d);
      if AllRight(k, days, warm, first, d - 1) {
        NextRightIff(k, days, warm, first, d);
      }
    }
  }

  lemma OneMoreRight(k: Setup, days: map<nat, Table>, warm: map<nat, Table>, first: nat, d: nat)
    requires first < d && Days(days, first, d)
    ensures AllRight(k, days, warm, first, d) <==>
              AllRight(k, days, warm, first, d - 1) && RightOn(k, days, warm, first, d)
    ensures AllIdleNew(k, days, warm, first, d) <==>
              AllIdleNew(k, days, warm, first, d - 1) && (Cached(k, warm, d) || IdleMeansNew(days, d))
  {
  }

  lemma NextRightIff(k: Setup, days: map<nat, Table>, warm: map<nat, Table>, first: nat, d: nat)
    requires first < d && Days(days, first, d) && Empty(k) && AllRunTo(warm, days)
    requires AllRight(k, days, warm, first, d - 1)
    ensures RightOn(k, days, warm, first, d) <==> Cached(k, warm, d) || IdleMeansNew(days, d)
  {
    assert RightOn(k, days, warm, first, d - 1);
    if !Cached(k, warm, d) {
      OneDayRightIff(k, Running(k, days, warm, first, d - 1), days, d);
    }
  }

  lemma FirstDayRight(days: map<nat, Table>, first: nat)
    requires first in days && forall e <- days :: first <= e
    ensures RunsTo(days[first], days, first)
  {
    forall c, s ensures Look(days[first], c, s) == Before(Cells(days, c, s), first + 1) {
      NothingBefore(days, first, c, s);
    }
  }

  lemma OneDayRightIff(k: Setup, prev: Table, days: map<nat, Table>, d: nat)
    requires d > 0 && d in days && RunsTo(prev, days, d - 1) && Empty(k)
    ensures RunsTo(Accumulate(k, prev, days[d]), days, d) <==> IdleMeansNew(days, d)
  {
    var t := Accumulate(k, prev, days[d]);
    forall c, s ensures Look(t, c, s) == Before(Cells(days, c, s), d + 1)
                   <==> (c !in days[d] ==> Before(Cells(days, c, s), d) == 0.0)
    {
      AccumulateMeaning(k, prev, days[d], c, s);
      assert Look(prev, c, s) == Before(Cells(days, c, s), d);
    }
    if RunsTo(t, days, d) {
      forall c, s | c !in days[d] ensures Before(Cells(days, c, s), d) == 0.0 {
        assert Look(t, c, s) == Before(Cells(days, c, s), d + 1);
      }
    }
  }

  /** Padded days satisfy that condition. */
  lemma PaddedIdleMeansNew(days: map<nat, Table>, e: nat)
    requires Padded(days) && e in days
    ensures IdleMeansNew(days, e)
  {
    assert NamesAll(days, e);
    forall c, s | c !in days[e] ensures Before(Cells(days, c, s), e) == 0.0 {
      BeforeAgree(Cells(days, c, s), map[], e);
      BeforeEmpty(e);
    }
  }

  /** So on padded days, with a right cache, the loop is right on every day. */
  lemma PaddedRunsRight(k: Setup, days: map<nat, Table>, warm: map<nat, Table>, first: nat, d: nat)
    requires Days(days, first, d) && (forall e <- days :: first <= e)
    requires Empty(k) && AllRunTo(warm, days) && Padded(days)
    ensures RunsTo(Running(k, days, warm, first, d), days, d)
  {
    forall e: nat | first < e <= d && !Cached(k, warm, e) ensures IdleMeansNew(days, e) {
      PaddedIdleMeansNew(days, e);
    }
    RunningRightIff(k, days, warm, first, d);
    assert RightOn(k, days, warm, first, d);
  }

  /** Without padding the loop does lose history: one transfer, then an idle day. */
  lemma UnpaddedLosesHistory()
    ensures var days: map<nat, Table> := map[0 := map["*" := map["*" := 5.0], "2" := map["*" := 5.0]], 1 := EMPTY_TO];
      Look(Running(ToTotals({}), days, map[], 0, 1), "2", "*") == 0.0 != Before(Cells(days, "2", "*"), 2)
  {
    var days: map<nat, Table> := map[0 := map["*" := map["*" := 5.0], "2" := map["*" := 5.0]], 1 := EMPTY_TO];
    assert "2"[0] != "*"[0];
    AccumulateMeaning(ToTotals({}), days[0], days[1], "2", "*");
    assert Running(ToTotals({}), days, map[], 0, 0) == days[0];
    var col := Cells(days, "2", "*");
    assert col[0] == 5.0 && col[1] == 0.0;
    assert Before(col, 0) == 0.0 && Before(col, 1) == 5.0;
  }

  // ----- which addresses a running total names -----

  ghost predicate NamedBy(days: map<nat, Table>, d: nat, c: string, a: string) {
    exists e :: e in days && e <= d && Named(days[e], c, a)
  }

  /** The table names exactly the addresses that some day up to `d` names. */
  ghost predicate NamesTo(t: Table, days: map<nat, Table>, d: nat) {
    forall c, a :: Named(t, c, a) <==> NamedBy(days, d, c, a)
  }

  ghost predicate AllNamesTo(tables: map<nat, Table>, days: map<nat, Table>) {
    forall d <- tables :: NamesTo(tables[d], days, d)
  }

  /** A chain that day `d` does not name has no address on any day. */
  ghost predicate NoAddressMissed(days: map<nat, Table>, d: nat)
    requires d in days
  {
    forall e <- days, c, a | c !in days[d] :: !Named(days[e], c, a)
  }

  lemma AccumulateNames(k: Setup, prev: Table, day: Table, c: string, a: string)
    requires k.start == map[] && k.blank == map[]
    ensures Named(Accumulate(k, prev, day), c, a) <==> c in day && (Named(prev, c, a) || Named(day, c, a))
  {
  }

  /** On padded days and with a right cache, the running total of a day names exactly the
      addresses that received something on a day up to it: the count of distinct addresses. */
  lemma {:induction false} RunningNames(k: Setup, days: map<nat, Table>, warm: map<nat, Table>, first: nat, d: nat)
    requires k.start == map[] && k.blank == map[]
    requires Days(days, first, d) && (forall e <- days :: first <= e && NoAddressMissed(days, e)) && AllNamesTo(warm, days)
    ensures NamesTo(Running(k, days, warm, first, d), days, d)
    decreases d
  {
    if !Cached(k, warm, d) {
      if d == first {
        forall c, a ensures Named(days[first], c, a) <==> NamedBy(days, first, c, a) {}
      } else {
        RunningNames(k, days, warm, first, d - 1);
        var prev := Running(k, days, warm, first, d - 1);
        forall c, a ensures Named(Accumulate(k, prev, days[d]), c, a) <==> NamedBy(days, d, c, a) {
          AccumulateNames(k, prev, days[d], c, a);
          OneMoreNamed(days, d, c, a);
          assert Named(prev, c, a) <==> NamedBy(days, d - 1, c, a);
          assert NoAddressMissed(days, d);
        }
      }
    }
  }

  /** In particular for the address endpoint. */
  lemma AddressRunningNames(override: set<nat>, days: map<nat, Table>, warm: map<nat, Table>, first: nat, d: nat)
    requires Days(days, first, d) && (forall e <- days :: first <= e && NoAddressMissed(days, e)) && AllNamesTo(warm, days)
    ensures NamesTo(Running(AddressTotals(override), days, warm, first, d), days, d)
  {
    RunningNames(AddressTotals(override), days, warm, first, d);
  }

  lemma OneMoreNamed(days: map<nat, Table>, d: nat, c: string, a: string)
    requires d > 0 && d in days
    ensures NamedBy(days, d, c, a) <==> NamedBy(days, d - 1, c, a) || Named(days[d], c, a)
  {
    if NamedBy(days, d, c, a) {
      var e :| e in days && e <= d && Named(days[e], c, a);
      assert e == d || e <= d - 1;
    }
    if NamedBy(days, d - 1, c, a) {
      var e :| e in days && e <= d - 1 && Named(days[e], c, a);
      assert e <= d;
    }
  }

  // ----- what the cache is worth to later calls -----

  /** What a table says about a day, if the day is there. */
  function CellOn(days: map<nat, Table>, e: nat, c: string, s: string): real {
    if e in days then Look(days[e], c, s) else 0.0
  }

  /** The days before `last` read the same. */
  ghost predicate SamePast(days: map<nat, Table>, later: map<nat, Table>, last: nat) {
    forall e: nat, c, s | e < last :: CellOn(days, e, c, s) == CellOn(later, e, c, s)
  }

  lemma RunsToStable(t: Table, days: map<nat, Table>, later: map<nat, Table>, d: nat)
    requires RunsTo(t, days, d) && SamePast(days, later, d + 1)
    ensures RunsTo(t, later, d)
  {
    forall c, s ensures Before(Cells(days, c, s), d + 1) == Before(Cells(later, c, s), d + 1) {
      var u, v := Cells(days, c, s), Cells(later, c, s);
      forall e: nat | e < d + 1 ensures (if e in u then u[e] else 0.0) == (if e in v then v[e] else 0.0) {
        assert CellOn(days, e, c, s) == CellOn(later, e, c, s);
      }
      BeforeAgree(u, v, d + 1);
    }
  }

  /** The cache stays right whatever `last`, the day that is still running, and the days
      after it will hold. */
  ghost predicate StaysRight(cache: map<nat, Table>, days: map<nat, Table>, last: nat) {
    forall later | SamePast(days, later, last) :: AllRunTo(cache, later)
  }

  /** That is so exactly when it holds no running total of the running day. */
  lemma StaysRightIff(cache: map<nat, Table>, days: map<nat, Table>, last: nat)
    requires AllRunTo(cache, days)
    ensures StaysRight(cache, days, last) <==> forall d <- cache :: d < last
  {
    if forall d <- cache :: d < last {
      forall later | SamePast(days, later, last) ensures AllRunTo(cache, later) {
        forall d <- cache ensures RunsTo(cache[d], later, d) {
          RunsToStable(cache[d], days, later, d);
        }
      }
    } else {
      var d :| d in cache && d >= last;
      var later := OneMore(days, last);
      OneMoreMeaning(days, last, d);
      assert SamePast(days, later, last);
      assert !RunsTo(cache[d], later, d);
    }
  }

  /** The days with one more dollar transferred to chain 2 on day `d`. */
  function OneMore(days: map<nat, Table>, d: nat): map<nat, Table> {
    days[d := Bump(Ensure(if d in days then days[d] else map[], "2", map[]), "2", "*", 1.0)]
  }

  lemma OneMoreMeaning(days: map<nat, Table>, last: nat, d: nat)
    requires d >= last
    ensures Before(Cells(OneMore(days, last), "2", "*"), d + 1) == Before(Cells(days, "2", "*"), d + 1) + 1.0
  {
    var u, v := Cells(OneMore(days, last), "2", "*"), Raised(Cells(days, "2", "*"), last, 1.0);
    BeforeUpdate(Cells(days, "2", "*"), last, 1.0, d + 1);
    BeforeAgree(u, v, d + 1);
  }

  /** The cache after the loop: `warm` and all days but `today`, with the running totals the
      loop has found for those that were missing or, if so set up, overridden. */
  function Refilled(k: Setup, days: map<nat, Table>, warm: map<nat, Table>, first: nat, today: nat): map<nat, Table>
    requires forall d <- days :: Days(days, first, d)
  {
    map d | d in warm.Keys + (days.Keys - {today}) ::
      if d in days && d != today && Stores(k, warm.Keys, d) then Running(k, days, warm, first, d)
      else if d in warm then warm[d] else map[]
  }

  lemma RefilledRight(k: Setup, days: map<nat, Table>, warm: map<nat, Table>, first: nat, today: nat)
    requires forall d <- days :: Days(days, first, d)
    requires Empty(k) && Padded(days) && AllRunTo(warm, days)
    ensures AllRunTo(Refilled(k, days, warm, first, today), days)
  {
    var cache := Refilled(k, days, warm, first, today);
    forall d <- cache ensures RunsTo(cache[d], days, d) {
      if d in days { PaddedRunsRight(k, days, warm, first, d); }
    }
  }

  predicate Stores(k: Setup, warm: set<nat>, d: nat) {
    d !in warm || (k.overwrite && d in k.override)
  }

  /** A day that is cached is stored again by the address endpoint only, and only where its
      cache is overridden. */
  lemma StoredAgain(override: set<nat>, warm: set<nat>, d: nat)
    requires d in warm
    ensures !Stores(ToTotals(override), warm, d)
    ensures Stores(AddressTotals(override), warm, d) <==> d in override
  {
  }

  /** A call takes `today` from the clock before the daily function takes the last day from
      it. If midnight falls between the two, the running total of the day that has just
      begun is cached: what the call caches stays right for later calls if and only if it
      does not. */
  lemma CacheStaysRightIff(k: Setup, days: map<nat, Table>, warm: map<nat, Table>, first: nat, last: nat, today: nat)
    requires first <= today && first <= last && forall d: nat :: d in days <==> first <= d <= last
    requires Empty(k) && Padded(days) && AllRunTo(warm, days) && forall d <- warm :: d < last
    ensures StaysRight(Refilled(k, days, warm, first, today), days, last) <==> last == today
  {
    var cache := Refilled(k, days, warm, first, today);
    RefilledRight(k, days, warm, first, today);
    StaysRightIff(cache, days, last);
    if last != today { assert last in cache; }
  }

  /** Midnight between the two readings of the clock: day 1 has just begun and is cached as
      empty, five dollars arrive later that day, and day 1's total stays zero for good. */
  lemma MidnightPoisonsCache()
    ensures var days: map<nat, Table> := map[0 := EMPTY_TO, 1 := EMPTY_TO];
      var later: map<nat, Table> := map[0 := EMPTY_TO, 1 := map[ANY := map[ANY := 5.0]]];
      var cache := Refilled(ToTotals({}), days, map[], 0, 0);
      1 in cache && Look(Running(ToTotals({}), later, cache, 0, 1), ANY, ANY) == 0.0
      && Before(Cells(later, ANY, ANY), 2) == 5.0
  {
    var days: map<nat, Table> := map[0 := EMPTY_TO, 1 := EMPTY_TO];
    var later: map<nat, Table> := map[0 := EMPTY_TO, 1 := map[ANY := map[ANY := 5.0]]];
    assert Running(ToTotals({}), days, map[], 0, 0) == EMPTY_TO;
    AccumulateMeaning(ToTotals({}), EMPTY_TO, EMPTY_TO, ANY, ANY);
    var col := Cells(later, ANY, ANY);
    assert col[0] == 0.0 && col[1] == 5.0;
    assert Before(col, 0) == 0.0 && Before(col, 1) == 0.0;
  }

  // ----- the date loop with its cache -----

  /** A day that is not cached: the first day's own table, or a new one. */
  method NextDay(k: Setup, daily: map<nat, DayTable>, first: nat, date: nat, prev: DayTable?)
    returns (table: DayTable)
    requires first <= date && date in daily && (date > first ==> prev != null)
    ensures if date == first then table == daily[first]
            else fresh(table) && table.cells == Accumulate(k, prev.cells, daily[date].cells)
  {
    if date == first {
      table := daily[date];
    } else {
      var cells := AccumulateDay(k, prev.cells, daily[date].cells);
      IsAccumulated(k, prev.cells, daily[date].cells, cells);
      table := new DayTable(cells);
    }
  }

  /** One date: from the cache, or computed and, unless it is today's, stored. */
  method OneDate(k: Setup, daily: map<nat, DayTable>, first: nat, date: nat, today: nat, prev: DayTable?,
                 cache: map<nat, DayTable>)
    returns (table: DayTable, filled: map<nat, DayTable>)
    requires first <= date && date in daily && (date > first ==> prev != null)
    ensures if date in cache && date !in k.override then table == cache[date]
            else if date == first then table == daily[first]
            else fresh(table) && table.cells == Accumulate(k, prev.cells, daily[date].cells)
    ensures filled == if date != today && Stores(k, cache.Keys, date) then cache[date := table] else cache
  {
    filled := cache;
    if date in cache && date !in k.override {
      table := cache[date];
    } else {
      table := NextDay(k, daily, first, date, prev);
      if date != today && (date !in cache || (k.overwrite && date in k.override)) {
        filled := cache[date := table];
      }
    }
  }

  ghost predicate Spans(m: map<nat, DayTable>, lo: nat, hi: nat) {
    forall d: nat :: d in m <==> lo <= d < hi
  }

  lemma SpansMore(m: map<nat, DayTable>, lo: nat, hi: nat, table: DayTable)
    requires Spans(m, lo, hi) && lo <= hi
    ensures Spans(m[hi := table], lo, hi + 1)
  {
  }

  /** The cache holds what the loop has stored so far, and what it held. */
  predicate FilledFrom(k: Setup, cache: map<nat, DayTable>, warm: map<nat, DayTable>, results: map<nat, DayTable>, today: nat) {
    cache.Keys == warm.Keys + (results.Keys - {today})
    && forall d <- cache ::
         if d in results && d != today && Stores(k, warm.Keys, d) then cache[d] == results[d]
         else d in warm && cache[d] == warm[d]
  }

  lemma FilledMore(k: Setup, cache: map<nat, DayTable>, filled: map<nat, DayTable>, warm: map<nat, DayTable>,
                   results: map<nat, DayTable>, today: nat, date: nat, table: DayTable)
    requires FilledFrom(k, cache, warm, results, today) && date !in results
    requires filled == if date != today && Stores(k, cache.Keys, date) then cache[date := table] else cache
    ensures FilledFrom(k, filled, warm, results[date := table], today)
  {
    assert date in cache <==> date in warm;
    forall d <- filled
      ensures if d in results[date := table] && d != today && Stores(k, warm.Keys, d) then filled[d] == results[date := table][d]
              else d in warm && filled[d] == warm[d]
    {
      if d != date { assert d in cache && filled[d] == cache[d]; }
    }
  }

  /** Results that hold the running totals. */
  ghost predicate Computed(k: Setup, results: map<nat, DayTable>, days: map<nat, Table>, kept: map<nat, Table>, first: nat)
    reads results.Values
  {
    forall d <- results :: Days(days, first, d) && results[d].cells == Running(k, days, kept, first, d)
  }

  predicate Reuses(k: Setup, results: map<nat, DayTable>, warm: map<nat, DayTable>) {
    forall d <- results :: d in warm && d !in k.override ==> results[d] == warm[d]
  }

  lemma RunningIs(k: Setup, days: map<nat, Table>, kept: map<nat, Table>, first: nat, date: nat, prev: Table, t: Table)
    requires Days(days, first, date) && (date > first ==> prev == Running(k, days, kept, first, date - 1))
    requires t == if Cached(k, kept, date) then kept[date] else if date == first then days[first]
                  else Accumulate(k, prev, days[date])
    ensures t == Running(k, days, kept, first, date)
  {
  }

  /** The loop's state before `date`. */
  ghost predicate UpToDate(k: Setup, daily: map<nat, DayTable>, warm: map<nat, DayTable>, results: map<nat, DayTable>,
                           cache: map<nat, DayTable>, first: nat, date: nat, today: nat)
  {
    Spans(results, first, date) && FilledFrom(k, cache, warm, results, today) && Reuses(k, results, warm)
    && (date > first && first !in warm && first in daily ==> results[first] == daily[first])
  }

  method LoopBody(k: Setup, daily: map<nat, DayTable>, first: nat, date: nat, today: nat, ghost warm: map<nat, DayTable>,
                  results: map<nat, DayTable>, cache: map<nat, DayTable>)
    returns (results': map<nat, DayTable>, cache': map<nat, DayTable>)
    requires first <= date && date in daily && Days(View(daily), first, date)
    requires UpToDate(k, daily, warm, results, cache, first, date, today)
    requires Computed(k, results, View(daily), View(warm), first)
    ensures UpToDate(k, daily, warm, results', cache', first, date + 1, today)
    ensures Computed(k, results', View(daily), View(warm), first)
  {
    ghost var days, kept := View(daily), View(warm);
    var prev: DayTable? := null;
    if date > first {
      prev := results[date - 1];
    }
    var table;
    table, cache' := OneDate(k, daily, first, date, today, prev, cache);
    RunningIs(k, days, kept, first, date, if prev == null then map[] else prev.cells, table.cells);
    FilledMore(k, cache, cache', warm, results, today, date, table);
    SpansMore(results, first, date, table);
    results' := results[date := table];
  }

  /** The loop over the dates, oldest first. Cached tables are reused as objects, and the
      first day's result is the daily table itself. */
  method DateLoop(k: Setup, daily: map<nat, DayTable>, first: nat, last: nat, today: nat, warm: map<nat, DayTable>)
    returns (results: map<nat, DayTable>, cache: map<nat, DayTable>)
    requires first <= last && Spans(daily, first, last + 1)
    ensures Spans(results, first, last + 1) && FilledFrom(k, cache, warm, results, today)
    ensures Computed(k, results, View(daily), View(warm), first)
    ensures Reuses(k, results, warm) && (first !in warm ==> results[first] == daily[first])
  {
    results, cache := map[], warm;
    for date := first to last + 1
      invariant UpToDate(k, daily, warm, results, cache, first, date, today)
      invariant Computed(k, results, View(daily), View(warm), first)
    {
      results, cache := LoopBody(k, daily, first, date, today, warm, results, cache);
    }
  }

  lemma ViewFilled(k: Setup, daily: map<nat, DayTable>, first: nat, today: nat, warm: map<nat, DayTable>,
                   results: map<nat, DayTable>, filled: map<nat, DayTable>)
    requires forall d <- daily :: Days(View(daily), first, d)
    requires results.Keys == daily.Keys && FilledFrom(k, filled, warm, results, today)
    requires Computed(k, results, View(daily), View(warm), first)
    ensures View(filled) == Refilled(k, View(daily), View(warm), first, today)
  {
    var u, v := View(filled), Refilled(k, View(daily), View(warm), first, today);
    assert u.Keys == v.Keys;
    forall d <- u ensures u[d] == v[d] {
      assert u[d] == filled[d].cells;
    }
  }

  /** What a call finds and what it leaves in the cache are right, and what it leaves stays
      right for later calls if and only if no midnight fell between the readings of the
      clock. */
  ghost predicate CallRight(
    days: map<nat, Table>, found: map<nat, Table>, cached: map<nat, Table>, warm: set<nat>, last: nat, today: nat)
  {
    AllRunTo(found, days) && AllRunTo(cached, days)
    && ((forall d <- warm :: d < last) ==> (StaysRight(cached, days, last) <==> last == today))
  }

  ghost predicate TablesRight(daily: map<nat, DayTable>, results: map<nat, DayTable>, cache: map<nat, DayTable>,
                              warm: set<nat>, last: nat, today: nat)
    reads daily.Values, results.Values, cache.Values
  {
    CallRight(View(daily), View(results), View(cache), warm, last, today)
  }

  /** What a call finds and what the cache becomes, on padded days and with a right cache. */
  method RunningTotals(k: Setup, daily: map<nat, DayTable>, first: nat, last: nat, today: nat, warm: map<nat, DayTable>)
    returns (results: map<nat, DayTable>, filled: map<nat, DayTable>)
    requires first <= today <= last && Spans(daily, first, last + 1)
    requires Padded(View(daily)) && AllRunTo(View(warm), View(daily)) && Empty(k)
    ensures Spans(results, first, last + 1) && FilledFrom(k, filled, warm, results, today)
    ensures TablesRight(daily, results, filled, warm.Keys, last, today)
    ensures Reuses(k, results, warm) && (first !in warm ==> results[first] == daily[first])
  {
    ghost var days, kept := View(daily), View(warm);
    results, filled := DateLoop(k, daily, first, last, today, warm);
    forall d <- results ensures RunsTo(results[d].cells, days, d) {
      PaddedRunsRight(k, days, kept, first, d);
    }
    ViewFilled(k, daily, first, today, warm, results, filled);
    RefilledRight(k, days, kept, first, today);
    if forall d <- warm :: d < last {
      CacheStaysRightIff(k, days, kept, first, last, today);
    }
  }

  class CumulativeCache {
    var entries: map<nat, DayTable>

    constructor ()
      ensures entries == map[]
    {
      entries := map[];
    }

    /** Every cached running total reads right. */
    ghost predicate Right(days: map<nat, Table>)
      reads this, entries.Values
    {
      AllRunTo(View(entries), days)
    }

    /** For any mix of cached and uncached days, every result is the sum of all days up to
        it, and so is every cache entry. For later calls the cache stays right if and only if
        midnight did not fall between the readings of the clock. Cached tables are returned
        as they are, and the first day's result is the daily table itself; both stay shared. */
    method CreateCumulativeAmounts(k: Setup, daily: map<nat, DayTable>, first: nat, last: nat, today: nat)
      returns (results: map<nat, DayTable>)
      requires first <= today <= last && Spans(daily, first, last + 1)
      requires Padded(View(daily)) && Right(View(daily)) && Empty(k)
      modifies this`entries
      ensures Spans(results, first, last + 1) && FilledFrom(k, entries, old(entries), results, today)
      ensures TablesRight(daily, results, entries, old(entries).Keys, last, today)
      ensures Reuses(k, results, old(entries)) && (first !in old(entries) ==> results[first] == daily[first])
    {
      var filled;
      results, filled := RunningTotals(k, daily, first, last, today, entries);
      entries := filled;
    }

    /** Padding a table later, shared or not, leaves the cache right. */
    method PadLater(table: DayTable, chain: string, blank: Inner, ghost days: map<nat, Table>)
      requires ReadsZero(blank) && Right(days)
      modifies table
      ensures Right(days)
      ensures entries == old(entries)
    {
      table.Pad(chain, blank);
      assert forall d <- entries :: forall c, s :: Look(entries[d].cells, c, s) == old(Look(entries[d].cells, c, s));
    }
  }
}
