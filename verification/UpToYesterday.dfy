/** All-time totals built on a cache of everything up to yesterday.

    The source keeps the cached table and the returned table as one object: on a hit the
    day's amounts are added to the cached object itself, and on a miss today's amounts are
    taken out again from the object that is returned. `Since` does what the code does;
    `SinceCopied` is the same code with the two tables copied. */
module UpToYesterday {
  import opened Transfers
  import opened DaySums
  import opened Tables
  import opened SharedTables
  import opened Cumulative

  method SubtractTokens(inner: Inner, tokens: Inner) returns (r: Inner)
    requires tokens.Keys <= inner.Keys
    ensures r.Keys == inner.Keys
    ensures forall s :: Get(r, s) == Get(inner, s) - Get(tokens, s)
  {
    r := inner;
    var todo := tokens.Keys;
    while todo != {}
      invariant todo <= tokens.Keys && r.Keys == inner.Keys
      invariant forall s :: Get(r, s) == Get(inner, s) - (if s in todo then 0.0 else Get(tokens, s))
    {
      var symbol :| symbol in todo;
      todo := todo - {symbol};
      r := r[symbol := r[symbol] - tokens[symbol]];
    }
  }

  /** Takes one day's amounts out again. */
  method SubtractDay(result: Table, day: Table) returns (r: Table)
    requires Names(result, day)
    ensures forall c, s :: Look(r, c, s) == Look(result, c, s) - Look(day, c, s)
  {
    r := result;
    var todo := day.Keys;
    while todo != {}
      invariant todo <= day.Keys && r.Keys == result.Keys
      invariant forall c <- todo :: r[c] == result[c]
      invariant forall c, s ::
          Look(r, c, s) == Look(result, c, s) - (if c in todo then 0.0 else Look(day, c, s))
    {
      var chain :| chain in todo;
      ghost var before := r;
      var inner := SubtractTokens(r[chain], day[chain]);
      r := r[chain := inner];
      forall c, s
        ensures Look(r, c, s) == Look(result, c, s) - (if c in todo - {chain} then 0.0 else Look(day, c, s))
      {
        assert Look(before, c, s) == Look(result, c, s) - (if c in todo then 0.0 else Look(day, c, s));
      }
      todo := todo - {chain};
    }
  }

  /** Everything strictly before today, in one cell. */
  ghost function Past(days: map<nat, Table>, today: nat, c: string, s: string): real {
    Before(Cells(days, c, s), today)
  }

  /** Everything up to the last day there is. */
  ghost function Full(days: map<nat, Table>, last: nat, c: string, s: string): real {
    Before(Cells(days, c, s), last + 1)
  }

  /** The days a hit asks for: from today on. */
  function From(days: map<nat, Table>, today: nat): map<nat, Table> {
    map d | d in days && d >= today :: days[d]
  }

  lemma {:induction false} FromSums(days: map<nat, Table>, today: nat, hi: nat, c: string, s: string)
    requires hi >= today
    ensures Before(Cells(From(days, today), c, s), hi) == Before(Cells(days, c, s), hi) - Past(days, today, c, s)
  {
    var col := Cells(From(days, today), c, s);
    if hi == today {
      BeforeAgree(col, map[], today);
      BeforeEmpty(today);
    } else {
      FromSums(days, today, hi - 1, c, s);
    }
  }

  lemma TodayAdded(days: map<nat, Table>, today: nat, c: string, s: string)
    requires today in days
    ensures Full(days, today, c, s) == Past(days, today, c, s) + Look(days[today], c, s)
  {
  }

  type Entries = map<string, map<nat, DayTable>>

  /** At most the entry for date `y` of query `p` is new or another; all else, the entries of
      other queries and of other dates, is as it was. */
  ghost predicate OnlyEntry(before: Entries, after: Entries, p: string, y: nat) {
    after.Keys == before.Keys + {p}
    && (forall q <- before :: q != p ==> after[q] == before[q])
    && forall e: nat | e != y ::
         (e in after[p] <==> p in before && e in before[p]) && (e in after[p] ==> after[p][e] == before[p][e])
  }

  function DatesOf(entries: Entries, p: string): map<nat, DayTable> {
    if p in entries then entries[p] else map[]
  }

  function WithDate(entries: Entries, p: string, y: nat, table: DayTable): Entries {
    var dates: map<nat, DayTable> := DatesOf(entries, p)[y := table];
    entries[p := dates]
  }

  lemma EntersOne(before: Entries, p: string, y: nat, table: DayTable)
    ensures OnlyEntry(before, before[p := DatesOf(before, p)], p, y)
    ensures OnlyEntry(before, WithDate(before, p, y, table), p, y)
  {
  }

  /** What a call adds up: all days, or on a hit those from today on, on top of what is stored. */
  method AddAsked(base: Table, days: map<nat, Table>, last: nat, today: nat, hit: bool, blank: Inner) returns (cells: Table)
    requires today <= last && today in days && forall d <- days :: d <= last
    requires ReadsZero(blank)
    ensures forall c, s :: Look(cells, c, s) == Look(base, c, s) + Full(days, last, c, s)
                                               - (if hit then Past(days, today, c, s) else 0.0)
    ensures Names(cells, days[today])
  {
    var asked := if hit then From(days, today) else days;
    forall c, s ensures Full(asked, last, c, s) == Full(days, last, c, s) - (if hit then Past(days, today, c, s) else 0.0) {
      FromSums(days, today, last + 1, c, s);
    }
    cells := AddDays(base, asked, last, blank);
    assert asked[today] == days[today];
  }

  class Totals {
    /** The cache: by query prefix, then by the day it runs up to. */
    var entries: Entries

    constructor ()
      ensures entries == map[]
    {
      entries := map[];
    }

    predicate Cached(p: string, yesterday: nat)
      reads this
    {
      p in entries && yesterday in entries[p]
    }

    method Enter(p: string, y: nat, table: DayTable)
      requires p in entries
      modifies this
      ensures entries == WithDate(old(entries), p, y, table)
    {
      var dates: map<nat, DayTable> := entries[p];
      dates := dates[y := table];
      entries := entries[p := dates];
    }

    /** What one call does, as written. `days` are the day tables from the start date to
        `last`, which is today unless midnight falls within the call. On a miss, the stored
        and returned object is the sum of all days but today. On a hit, the amounts from
        today on go into the stored object, which is returned. */
    method Since(p: string, days: map<nat, Table>, last: nat, today: nat, start: Table, blank: Inner)
      returns (result: DayTable)
      requires 0 < today <= last && today in days && forall d <- days :: d <= last
      requires ReadsZero(blank) && forall c, s :: Look(start, c, s) == 0.0
      modifies this, if Cached(p, today - 1) then {entries[p][today - 1]} else {}
      ensures Cached(p, today - 1) && entries[p][today - 1] == result
      ensures old(Cached(p, today - 1)) ==>
                result == old(entries[p][today - 1]) && entries == old(entries)
                && forall c, s :: Look(result.cells, c, s) == old(Look(entries[p][today - 1].cells, c, s))
                                                             + Full(days, last, c, s) - Past(days, today, c, s)
      ensures !old(Cached(p, today - 1)) ==>
                fresh(result)
                && forall c, s :: Look(result.cells, c, s) == Full(days, last, c, s) - Look(days[today], c, s)
      ensures OnlyEntry(old(entries), entries, p, today - 1)
    {
      var yesterday: nat := today - 1;
      result := new DayTable(start);
      ghost var before := entries;
      if p !in entries {
        entries := entries[p := map[]];
      }
      var hit := yesterday in entries[p];
      if hit {
        result := entries[p][yesterday];
      }
      result.cells := AddAsked(result.cells, days, last, today, hit, blank);
      if yesterday !in entries[p] {
        var upToYesterday := result;
        upToYesterday.cells := SubtractDay(upToYesterday.cells, days[today]);
        Enter(p, yesterday, upToYesterday);
      }
      EntersOne(before, p, yesterday, entries[p][yesterday]);
    }

    /** The same with the cached and the returned table kept apart: every answer is the full
        total, and what a miss stores is the sum of all days but today. */
    method SinceCopied(p: string, days: map<nat, Table>, last: nat, today: nat, start: Table, blank: Inner)
      returns (result: DayTable)
      requires 0 < today <= last && today in days && forall d <- days :: d <= last
      requires ReadsZero(blank) && forall c, s :: Look(start, c, s) == 0.0
      requires Cached(p, today - 1) ==>
                 forall c, s :: Look(entries[p][today - 1].cells, c, s) == Past(days, today, c, s)
      modifies this
      ensures Cached(p, today - 1) && fresh(result) && entries[p][today - 1] != result
      ensures forall c, s :: Look(result.cells, c, s) == Full(days, last, c, s)
      ensures if old(Cached(p, today - 1)) then entries == old(entries)
              else forall c, s :: Look(entries[p][today - 1].cells, c, s) == Full(days, last, c, s) - Look(days[today], c, s)
      ensures OnlyEntry(old(entries), entries, p, today - 1)
    {
      var yesterday: nat := today - 1;
      ghost var before := entries;
      if p !in entries {
        entries := entries[p := map[]];
      }
      var hit := yesterday in entries[p];
      var cells := AddAsked(if hit then entries[p][yesterday].cells else start, days, last, today, hit, blank);
      result := new DayTable(cells);
      if yesterday !in entries[p] {
        var past := SubtractDay(cells, days[today]);
        var upToYesterday := new DayTable(past);
        Enter(p, yesterday, upToYesterday);
      }
      EntersOne(before, p, yesterday, entries[p][yesterday]);
    }
  }

  /** All days but today add up to the past, whatever the days hold, if and only if today is
      the last day: a miss stores the sum of the days before today exactly when midnight does
      not fall within the call. */
  lemma StoredIsPastIff(today: nat, last: nat)
    requires today <= last
    ensures (forall days: map<nat, Table>, c, s | today in days && forall d <- days :: d <= last ::
               Full(days, last, c, s) - Look(days[today], c, s) == Past(days, today, c, s))
       <==> last == today
  {
    if last == today {
      forall days: map<nat, Table>, c, s | today in days && forall d <- days :: d <= last
        ensures Full(days, last, c, s) - Look(days[today], c, s) == Past(days, today, c, s)
      {
        TodayAdded(days, today, c, s);
      }
    } else {
      var days: map<nat, Table> := map[today := map[], last := map[ANY := map[ANY := 1.0]]];
      var col := Cells(days, ANY, ANY);
      assert col == map[today := 0.0, last := 1.0];
      BeforeAgree(col, map[], last);
      BeforeEmpty(last);
      BeforeAgree(col, map[], today);
      BeforeEmpty(today);
      assert Full(days, last, ANY, ANY) - Look(days[today], ANY, ANY) == 1.0 && Past(days, today, ANY, ANY) == 0.0;
    }
  }

  function SumOf(tables: seq<Table>, k: nat, c: string, s: string): real
    requires k <= |tables|
  {
    if k == 0 then 0.0 else SumOf(tables, k - 1, c, s) + Look(tables[k - 1], c, s)
  }

  /** One more call of the day, which finds `table` for today. */
  method CallAgain(
    totals: Totals, p: string, days: map<nat, Table>, table: Table, today: nat, start: Table, blank: Inner)
    returns (again: DayTable)
    requires today > 0 && today in days && forall d <- days :: d <= today
    requires ReadsZero(blank) && forall c, s :: Look(start, c, s) == 0.0
    requires totals.Cached(p, today - 1)
    modifies totals, totals.entries[p][today - 1]
    ensures totals.entries == old(totals.entries) && again == totals.entries[p][today - 1]
    ensures forall c, s :: Look(again.cells, c, s) == old(Look(totals.entries[p][today - 1].cells, c, s)) + Look(table, c, s)
  {
    var now := days[today := table];
    again := totals.Since(p, now, today, today, start, blank);
    forall c, s ensures Full(now, today, c, s) == Past(now, today, c, s) + Look(table, c, s) {
      TodayAdded(now, today, c, s);
    }
  }

  /** A day of calls for one query, as written: a miss, then one hit for each table in
      `later`, today's amounts as that call finds them. The k-th answer after the miss is the
      past plus all of the first k of these, so it is the true total exactly where the
      earlier ones add up to zero; the miss itself is right exactly where today is zero. */
  method CallsOfOneDay(
    totals: Totals, p: string, days: map<nat, Table>, later: seq<Table>, today: nat, start: Table, blank: Inner)
    returns (answers: seq<Table>)
    requires today > 0 && today in days && forall d <- days :: d <= today
    requires ReadsZero(blank) && forall c, s :: Look(start, c, s) == 0.0
    requires !totals.Cached(p, today - 1)
    modifies totals
    ensures |answers| == |later| + 1
    ensures forall k, c, s :: 0 <= k <= |later| ==>
              Look(answers[k], c, s) == Past(days, today, c, s) + SumOf(later, k, c, s)
    ensures forall c, s :: Look(answers[0], c, s) == Full(days, today, c, s) <==> Look(days[today], c, s) == 0.0
    ensures forall k, c, s :: 1 <= k <= |later| ==>
              (Look(answers[k], c, s) == Past(days, today, c, s) + Look(later[k - 1], c, s)
               <==> SumOf(later, k - 1, c, s) == 0.0)
  {
    answers := AnswersOfOneDay(totals, p, days, later, today, start, blank);
    forall c, s ensures Full(days, today, c, s) == Past(days, today, c, s) + Look(days[today], c, s) {
      TodayAdded(days, today, c, s);
    }
  }

  method AnswersOfOneDay(
    totals: Totals, p: string, days: map<nat, Table>, later: seq<Table>, today: nat, start: Table, blank: Inner)
    returns (answers: seq<Table>)
    requires today > 0 && today in days && forall d <- days :: d <= today
    requires ReadsZero(blank) && forall c, s :: Look(start, c, s) == 0.0
    requires !totals.Cached(p, today - 1)
    modifies totals
    ensures |answers| == |later| + 1
    ensures forall k, c, s :: 0 <= k <= |later| ==>
              Look(answers[k], c, s) == Past(days, today, c, s) + SumOf(later, k, c, s)
  {
    forall c, s ensures Full(days, today, c, s) == Past(days, today, c, s) + Look(days[today], c, s) {
      TodayAdded(days, today, c, s);
    }
    var result := totals.Since(p, days, today, today, start, blank);
    answers := [result.cells];
    for k := 0 to |later|
      invariant fresh(result) && totals.Cached(p, today - 1) && totals.entries[p][today - 1] == result
      invariant |answers| == k + 1 && answers[k] == result.cells
      invariant forall j, c, s :: 0 <= j <= k ==>
                  Look(answers[j], c, s) == Past(days, today, c, s) + SumOf(later, j, c, s)
    {
      var again := CallAgain(totals, p, days, later[k], today, start, blank);
      answers := answers + [again.cells];
    }
  }

  // ----- copied calls over many days -----

  /** One call: the key of its query, and the day tables it finds, up to its today. */
  datatype Ask = Ask(p: string, days: map<nat, Table>, today: nat)

  ghost predicate Sensible(a: Ask) {
    0 < a.today && a.today in a.days && forall d <- a.days :: d <= a.today
  }

  /** A later call for the same query finds the same past. */
  ghost predicate Follows(a: Ask, b: Ask) {
    a.p == b.p ==> a.today <= b.today && SamePast(a.days, b.days, a.today)
  }

  ghost predicate InOrder(asks: seq<Ask>) {
    forall i, j :: 0 <= i < j < |asks| ==> Follows(asks[i], asks[j])
  }

  lemma SamePastSums(u: map<nat, Table>, v: map<nat, Table>, today: nat, c: string, s: string)
    requires SamePast(u, v, today)
    ensures Past(u, today, c, s) == Past(v, today, c, s)
  {
    var a, b := Cells(u, c, s), Cells(v, c, s);
    forall e: nat | e < today ensures (if e in a then a[e] else 0.0) == (if e in b then b[e] else 0.0) {
      assert CellOn(u, e, c, s) == CellOn(v, e, c, s);
    }
    BeforeAgree(a, b, today);
  }

  /** What is stored for the day before the call's today is the past as the call finds it. */
  ghost predicate StoredFor(totals: Totals, a: Ask)
    reads totals, set q, y | q in totals.entries && y in totals.entries[q] :: totals.entries[q][y]
  {
    a.today > 0 && totals.Cached(a.p, a.today - 1) ==>
      forall c, s :: Look(totals.entries[a.p][a.today - 1].cells, c, s) == Past(a.days, a.today, c, s)
  }

  /** With the tables copied, any number of calls for any queries in any order, over any number
      of days, each answer with the full total of their own query. */
  method CallsCopied(totals: Totals, asks: seq<Ask>, start: Table, blank: Inner) returns (answers: seq<Table>)
    requires (forall a <- asks :: Sensible(a)) && InOrder(asks)
    requires ReadsZero(blank) && forall c, s :: Look(start, c, s) == 0.0
    requires forall j :: 0 <= j < |asks| ==> StoredFor(totals, asks[j])
    modifies totals
    ensures |answers| == |asks|
    ensures forall k, c, s :: 0 <= k < |asks| ==> Look(answers[k], c, s) == Full(asks[k].days, asks[k].today, c, s)
  {
    answers := [];
    for k := 0 to |asks|
      invariant |answers| == k
      invariant forall j, c, s :: 0 <= j < k ==> Look(answers[j], c, s) == Full(asks[j].days, asks[j].today, c, s)
      invariant forall j :: k <= j < |asks| ==> StoredFor(totals, asks[j])
    {
      var a := asks[k];
      assert a in asks;
      var answer := CallCopied(totals, a, asks[k + 1..], start, blank);
      answers := answers + [answer];
      forall j | k + 1 <= j < |asks| ensures StoredFor(totals, asks[j]) {
        assert asks[k + 1..][j - (k + 1)] == asks[j];
      }
    }
  }

  method CallCopied(totals: Totals, a: Ask, ghost later: seq<Ask>, start: Table, blank: Inner)
    returns (answer: Table)
    requires Sensible(a) && StoredFor(totals, a)
    requires forall b <- later :: Sensible(b) && Follows(a, b) && StoredFor(totals, b)
    requires ReadsZero(blank) && forall c, s :: Look(start, c, s) == 0.0
    modifies totals
    ensures forall c, s :: Look(answer, c, s) == Full(a.days, a.today, c, s)
    ensures forall b <- later :: StoredFor(totals, b)
  {
    var result := totals.SinceCopied(a.p, a.days, a.today, a.today, start, blank);
    answer := result.cells;
    forall c, s ensures Look(totals.entries[a.p][a.today - 1].cells, c, s) == Past(a.days, a.today, c, s) {
      TodayAdded(a.days, a.today, c, s);
    }
    forall b <- later ensures StoredFor(totals, b) {
      if b.p == a.p && b.today == a.today {
        forall c, s ensures Past(b.days, b.today, c, s) == Past(a.days, a.today, c, s) {
          SamePastSums(a.days, b.days, a.today, c, s);
        }
      }
    }
  }
}
