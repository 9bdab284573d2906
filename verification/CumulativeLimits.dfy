/** Exactly when running totals are right in all runs: the runs in which they are not. */
module CumulativeLimits {
  import opened Options
  import opened Transfers
  import opened DayCache
  import opened DayCacheProofs
  import opened Transparency
  import opened CumulativeRuns

  /** All running totals are right in all runs without a midnight inside a call. */
  ghost predicate RightInCalmRuns<V(!new)>(v: Service<V>, sc: Scope) {
    forall w0: World<V>, run | RunOf(v, sc, w0, run) && CalmRun(v, w0, run) :: AllRight(v, sc, After(v, w0, run))
  }

  /** All running totals are right in all runs. */
  ghost predicate RightInAllRuns<V(!new)>(v: Service<V>, sc: Scope) {
    forall w0: World<V>, run | RunOf(v, sc, w0, run) :: AllRight(v, sc, After(v, w0, run))
  }

  /** For every key there is a row that counts in the cell of `c` and `x`. */
  ghost predicate Shows<V(!new)>(v: Service<V>, rowAt: string -> Row, c: string, x: string) {
    forall key :: v.cfg.key(rowAt(key)) == key && Weight(v.cell(c, x), rowAt(key)) != 0.0
  }

  // ----- a request for the first two days -----

  /** The service has just started, on the day after the release. */
  function Fresh<V>(v: Service<V>, db: map<nat, seq<Row>>): State<Row, V> {
    State(v.release + 1, db, [], map[], [], map[])
  }

  /** It answers a request for both days. */
  function Serving<V>(
    v: Service<V>, db: map<nat, seq<Row>>, x: string, heap: seq<map<string, V>>, cache: map<string, map<nat, Ref>>,
    wg: int, stage: Stage, first: Worker<Row>, second: Worker<Row>): State<Row, V>
  {
    State(v.release + 1, db, heap, cache, [Request(x, v.release, v.release + 1, wg, stage)],
          map[(0, v.release) := first, (0, v.release + 1) := second])
  }

  function Answered2<V>(v: Service<V>, db: map<nat, seq<Row>>, x: string, rows: seq<Row>): State<Row, V> {
    var t := v.cfg.compute(WithPrefix(v.cfg, rows, x));
    Serving(v, db, x, [t, t], map[CachePrefix(x) := map[v.release := 0]], 0, Returned(t.Keys), Done(0, rows), Done(1, rows))
  }

  lemma Begun<V(!new)>(v: Service<V>, db: map<nat, seq<Row>>, x: string)
    ensures Step(v.cfg, Fresh(v, db), Begin(x, v.release))
         == Serving(v, db, x, [], map[], 2, Running, Waiting, Waiting)
  {
    var s, t := Step(v.cfg, Fresh(v, db), Begin(x, v.release)), Serving<V>(v, db, x, [], map[], 2, Running, Waiting, Waiting);
    assert s.workers == t.workers;
    assert s.requests == t.requests;
  }

  lemma CheckedBoth<V(!new)>(v: Service<V>, db: map<nat, seq<Row>>, x: string)
    ensures var cache: map<string, map<nat, Ref>> := map[CachePrefix(x) := map[]];
      var once := Serving(v, db, x, [v.cfg.start], cache, 2, Running, Fetching(0), Waiting);
      Step(v.cfg, Serving(v, db, x, [], map[], 2, Running, Waiting, Waiting), Check(0, v.release)) == once
      && Step(v.cfg, once, Check(0, v.release + 1))
         == Serving(v, db, x, [v.cfg.start, v.cfg.start], cache, 2, Running, Fetching(0), Fetching(1))
  {
    var cache: map<string, map<nat, Ref>> := map[CachePrefix(x) := map[]];
    var s := Serving<V>(v, db, x, [], map[], 2, Running, Waiting, Waiting);
    var once := Serving(v, db, x, [v.cfg.start], cache, 2, Running, Fetching(0), Waiting);
    var twice := Serving(v, db, x, [v.cfg.start, v.cfg.start], cache, 2, Running, Fetching(0), Fetching(1));
    assert Step(v.cfg, s, Check(0, v.release)).workers == once.workers;
    assert Step(v.cfg, s, Check(0, v.release)).heap == once.heap;
    assert Step(v.cfg, once, Check(0, v.release + 1)).workers == twice.workers;
    assert Step(v.cfg, once, Check(0, v.release + 1)).heap == twice.heap;
  }

  /** The rows of both days are the same. */
  ghost predicate BothDays<V>(v: Service<V>, db: map<nat, seq<Row>>, rows: seq<Row>) {
    RowsOn(Fresh(v, db), v.release) == rows && RowsOn(Fresh(v, db), v.release + 1) == rows
  }

  lemma FetchedFirst<V(!new)>(v: Service<V>, db: map<nat, seq<Row>>, x: string, rows: seq<Row>, cache: map<string, map<nat, Ref>>)
    requires BothDays(v, db, rows)
    ensures var t := v.cfg.compute(WithPrefix(v.cfg, rows, x));
      Step(v.cfg, Serving(v, db, x, [v.cfg.start, v.cfg.start], cache, 2, Running, Fetching(0), Fetching(1)), Fetch(0, v.release))
      == Serving(v, db, x, [t, v.cfg.start], cache, 2, Running, Storing(0, rows), Fetching(1))
  {
    var t := v.cfg.compute(WithPrefix(v.cfg, rows, x));
    var s := Serving(v, db, x, [v.cfg.start, v.cfg.start], cache, 2, Running, Fetching(0), Fetching(1));
    assert RowsOn(s, v.release) == RowsOn(Fresh(v, db), v.release);
    assert RowsFor(v.cfg, s, x, v.release) == WithPrefix(v.cfg, rows, x);
    assert s.heap[0 := t] == [t, v.cfg.start];
    assert s.workers[(0, v.release) := Storing(0, rows)]
        == map[(0, v.release) := Storing(0, rows), (0, v.release + 1) := Fetching(1)];
  }

  lemma FetchedSecond<V(!new)>(v: Service<V>, db: map<nat, seq<Row>>, x: string, rows: seq<Row>, cache: map<string, map<nat, Ref>>)
    requires BothDays(v, db, rows)
    ensures var t := v.cfg.compute(WithPrefix(v.cfg, rows, x));
      Step(v.cfg, Serving(v, db, x, [t, v.cfg.start], cache, 2, Running, Storing(0, rows), Fetching(1)), Fetch(0, v.release + 1))
      == Serving(v, db, x, [t, t], cache, 1, Running, Storing(0, rows), Done(1, rows))
  {
    var t := v.cfg.compute(WithPrefix(v.cfg, rows, x));
    var s := Serving(v, db, x, [t, v.cfg.start], cache, 2, Running, Storing(0, rows), Fetching(1));
    assert RowsOn(s, v.release + 1) == RowsOn(Fresh(v, db), v.release + 1);
    assert RowsFor(v.cfg, s, x, v.release + 1) == WithPrefix(v.cfg, rows, x);
    assert s.heap[1 := t] == [t, t];
    assert s.workers[(0, v.release + 1) := Done(1, rows)]
        == map[(0, v.release) := Storing(0, rows), (0, v.release + 1) := Done(1, rows)];
  }

  lemma StoredTable<V(!new)>(v: Service<V>, db: map<nat, seq<Row>>, x: string, rows: seq<Row>, t: map<string, V>)
    ensures var p := CachePrefix(x);
      StoreStep(v.cfg, Serving(v, db, x, [t, t], map[p := map[]], 1, Running, Storing(0, rows), Done(1, rows)), 0, v.release)
      == Serving(v, db, x, [t, t], map[p := map[v.release := 0]], 0, Running, Done(0, rows), Done(1, rows))
  {
    var p := CachePrefix(x);
    var s := Serving(v, db, x, [t, t], map[p := map[]], 1, Running, Storing(0, rows), Done(1, rows));
    var s' := Serving(v, db, x, [t, t], map[p := map[v.release := 0]], 0, Running, Done(0, rows), Done(1, rows));
    assert StoreStep(v.cfg, s, 0, v.release).workers == s'.workers;
    assert StoreStep(v.cfg, s, 0, v.release).cache == s'.cache;
  }

  lemma StoredFirst<V(!new)>(v: Service<V>, db: map<nat, seq<Row>>, x: string, rows: seq<Row>)
    ensures var t := v.cfg.compute(WithPrefix(v.cfg, rows, x)); var p := CachePrefix(x);
      Step(v.cfg, Serving(v, db, x, [t, t], map[p := map[]], 1, Running, Storing(0, rows), Done(1, rows)), Store(0, v.release))
      == Serving(v, db, x, [t, t], map[p := map[v.release := 0]], 0, Running, Done(0, rows), Done(1, rows))
  {
    StoredTable(v, db, x, rows, v.cfg.compute(WithPrefix(v.cfg, rows, x)));
  }

  /** Both days done, with the same table, at some stage of the request. */
  function BothDone<V>(v: Service<V>, db: map<nat, seq<Row>>, x: string, rows: seq<Row>, stage: Stage): State<Row, V> {
    var t := v.cfg.compute(WithPrefix(v.cfg, rows, x));
    Serving(v, db, x, [t, t], map[CachePrefix(x) := map[v.release := 0]], 0, stage, Done(0, rows), Done(1, rows))
  }

  lemma BothHaveTable<V(!new)>(v: Service<V>, db: map<nat, seq<Row>>, x: string, rows: seq<Row>, stage: Stage)
    ensures var s := BothDone(v, db, x, rows, stage); var t := v.cfg.compute(WithPrefix(v.cfg, rows, x));
      AnswerTable(s, 0, v.release) == t && AnswerTable(s, 0, v.release + 1) == t
  {
  }

  lemma CollectsOne<V(!new)>(v: Service<V>, db: map<nat, seq<Row>>, x: string, rows: seq<Row>)
    requires Lawful(v)
    ensures var t := v.cfg.compute(WithPrefix(v.cfg, rows, x));
      SeenChains(v.cfg, BothDone(v, db, x, rows, Running), 0, v.release, v.release + 2) == t.Keys
  {
    var t, s := v.cfg.compute(WithPrefix(v.cfg, rows, x)), BothDone(v, db, x, rows, Running);
    assert PadsByKeys(v, t);
    BothHaveTable(v, db, x, rows, Running);
    assert SeenChains(v.cfg, s, 0, v.release, v.release) == {};
    assert SeenChains(v.cfg, s, 0, v.release, v.release + 1) == t.Keys;
  }

  lemma SameTablesNeedNoPadding<V(!new)>(v: Service<V>, db: map<nat, seq<Row>>, x: string, rows: seq<Row>)
    requires Lawful(v)
    ensures var t := v.cfg.compute(WithPrefix(v.cfg, rows, x));
      Step(v.cfg, BothDone(v, db, x, rows, Running), Collect(0)) == BothDone(v, db, x, rows, Padding(t.Keys))
      && Step(v.cfg, BothDone(v, db, x, rows, Padding(t.Keys)), Return(0)) == Answered2(v, db, x, rows)
  {
    var t := v.cfg.compute(WithPrefix(v.cfg, rows, x));
    CollectsOne(v, db, x, rows);
    BothHaveTable(v, db, x, rows, Padding(t.Keys));
    assert PadDone(BothDone(v, db, x, rows, Padding(t.Keys)), 0);
  }

  // ----- runs, step by step -----

  /** A run of the scope from `w0` that leads to `w`, calm if asked for. */
  ghost predicate LeadsTo<V(!new)>(v: Service<V>, sc: Scope, w0: World<V>, run: seq<Event>, calm: bool, w: World<V>) {
    RunOf(v, sc, w0, run) && After(v, w0, run) == w && (calm ==> CalmRun(v, w0, run))
  }

  lemma OneOn<V(!new)>(v: Service<V>, sc: Scope, w0: World<V>, run: seq<Event>, calm: bool, w: World<V>, e: Event, w': World<V>)
    returns (run': seq<Event>)
    requires LeadsTo(v, sc, w0, run, calm, w) && Next(v, w, e) == w' && InScope(e, sc) && (calm ==> Calm(v, w, e))
    ensures LeadsTo(v, sc, w0, run', calm, w')
  {
    run' := run + [e];
    assert run'[..|run|] == run;
    if calm {
      forall k | 0 <= k < |run'| ensures Calm(v, After(v, w0, run'[..k]), run'[k]) {
        if k < |run| {
          assert run'[..k] == run[..k];
          assert Calm(v, After(v, w0, run[..k]), run[k]);
        }
      }
    }
  }

  lemma BaseOn<V(!new)>(v: Service<V>, sc: Scope, w0: World<V>, run: seq<Event>, calm: bool, w: World<V>, a: Action<Row>,
                        s': State<Row, V>)
    returns (run': seq<Event>)
    requires LeadsTo(v, sc, w0, run, calm, w) && Step(v.cfg, w.days, a) == s' && (a.Begin? ==> a.prefix in sc.asked)
    ensures LeadsTo(v, sc, w0, run', calm, w.(days := s'))
  {
    run' := OneOn(v, sc, w0, run, calm, w, Base(a), w.(days := s'));
  }

  lemma ChecksBoth<V(!new)>(v: Service<V>, sc: Scope, w0: World<V>, run: seq<Event>, calm: bool, w: World<V>,
                            db: map<nat, seq<Row>>, x: string)
    returns (run': seq<Event>)
    requires LeadsTo(v, sc, w0, run, calm, w) && w.days == Fresh(v, db) && x in sc.asked
    ensures LeadsTo(v, sc, w0, run', calm, w.(days := BothChecked(v, db, x)))
  {
    Begun(v, db, x);
    var s1 := Serving<V>(v, db, x, [], map[], 2, Running, Waiting, Waiting);
    run' := BaseOn(v, sc, w0, run, calm, w, Begin(x, v.release), s1);
    CheckedBoth(v, db, x);
    var s2 := Serving(v, db, x, [v.cfg.start], map[CachePrefix(x) := map[]], 2, Running, Fetching(0), Waiting);
    run' := BaseOn(v, sc, w0, run', calm, w.(days := s1), Check(0, v.release), s2);
    run' := BaseOn(v, sc, w0, run', calm, w.(days := s2), Check(0, v.release + 1), BothChecked(v, db, x));
  }

  function BothChecked<V>(v: Service<V>, db: map<nat, seq<Row>>, x: string): State<Row, V> {
    Serving(v, db, x, [v.cfg.start, v.cfg.start], map[CachePrefix(x) := map[]], 2, Running, Fetching(0), Fetching(1))
  }

  function BothFetched<V>(v: Service<V>, db: map<nat, seq<Row>>, x: string, rows: seq<Row>): State<Row, V> {
    var t := v.cfg.compute(WithPrefix(v.cfg, rows, x));
    Serving(v, db, x, [t, t], map[CachePrefix(x) := map[]], 1, Running, Storing(0, rows), Done(1, rows))
  }

  lemma FetchesBoth<V(!new)>(v: Service<V>, sc: Scope, w0: World<V>, run: seq<Event>, calm: bool, w: World<V>,
                             db: map<nat, seq<Row>>, x: string, rows: seq<Row>)
    returns (run': seq<Event>)
    requires LeadsTo(v, sc, w0, run, calm, w) && w.days == BothChecked(v, db, x) && BothDays(v, db, rows)
    ensures LeadsTo(v, sc, w0, run', calm, w.(days := BothFetched(v, db, x, rows)))
  {
    var cache: map<string, map<nat, Ref>> := map[CachePrefix(x) := map[]];
    FetchedFirst(v, db, x, rows, cache);
    var s4 := Serving(v, db, x, [v.cfg.compute(WithPrefix(v.cfg, rows, x)), v.cfg.start], cache, 2, Running, Storing(0, rows), Fetching(1));
    run' := BaseOn(v, sc, w0, run, calm, w, Fetch(0, v.release), s4);
    FetchedSecond(v, db, x, rows, cache);
    run' := BaseOn(v, sc, w0, run', calm, w.(days := s4), Fetch(0, v.release + 1), BothFetched(v, db, x, rows));
  }

  lemma ReturnsBoth<V(!new)>(v: Service<V>, sc: Scope, w0: World<V>, run: seq<Event>, calm: bool, w: World<V>,
                             db: map<nat, seq<Row>>, x: string, rows: seq<Row>)
    returns (run': seq<Event>)
    requires Lawful(v) && LeadsTo(v, sc, w0, run, calm, w) && w.days == BothFetched(v, db, x, rows)
    ensures LeadsTo(v, sc, w0, run', calm, w.(days := Answered2(v, db, x, rows)))
  {
    var t, full := v.cfg.compute(WithPrefix(v.cfg, rows, x)), map[CachePrefix(x) := map[v.release := 0]];
    StoredFirst(v, db, x, rows);
    var s6 := Serving(v, db, x, [t, t], full, 0, Running, Done(0, rows), Done(1, rows));
    run' := BaseOn(v, sc, w0, run, calm, w, Store(0, v.release), s6);
    SameTablesNeedNoPadding(v, db, x, rows);
    var s7 := Serving(v, db, x, [t, t], full, 0, Padding(t.Keys), Done(0, rows), Done(1, rows));
    run' := BaseOn(v, sc, w0, run', calm, w.(days := s6), Collect(0), s7);
    run' := BaseOn(v, sc, w0, run', calm, w.(days := s7), Return(0), Answered2(v, db, x, rows));
  }

  /** From a fresh service, a request for both days returns. */
  lemma AnswersBoth<V(!new)>(v: Service<V>, sc: Scope, w0: World<V>, run: seq<Event>, calm: bool, w: World<V>,
                             db: map<nat, seq<Row>>, x: string, rows: seq<Row>)
    returns (run': seq<Event>)
    requires Lawful(v) && LeadsTo(v, sc, w0, run, calm, w) && w.days == Fresh(v, db)
    requires x in sc.asked && BothDays(v, db, rows)
    ensures LeadsTo(v, sc, w0, run', calm, w.(days := Answered2(v, db, x, rows)))
  {
    run' := ChecksBoth(v, sc, w0, run, calm, w, db, x);
    run' := FetchesBoth(v, sc, w0, run', calm, w.(days := BothChecked(v, db, x)), db, x, rows);
    run' := ReturnsBoth(v, sc, w0, run', calm, w.(days := BothFetched(v, db, x, rows)), db, x, rows);
  }

  // ----- mixed prefixes -----

  /** Row `r` on both days, and a total for the release day loaded. */
  function Loaded2<V>(v: Service<V>, r: Row, t: map<string, V>): World<V> {
    World(Fresh(v, map[v.release := [r], v.release + 1 := [r]]), map["*" := map[v.release := t]], [])
  }

  lemma RowsOfOne<V(!new)>(v: Service<V>, s: State<Row, V>, r: Row, q: string)
    requires v.release in s.db && s.db[v.release] == [r]
    ensures RowsUpTo(v, s, q, v.release + 1) == if q <= v.cfg.key(r) then [r] else []
  {
    OneRow(v.cfg, r, q);
    assert RowsUpTo(v, s, q, v.release) == [];
  }

  lemma ComputedTotals<V(!new)>(v: Service<V>, rows: seq<Row>)
    requires Lawful(v)
    ensures Totals(v, v.cfg.compute(rows), rows)
  {
    assert TablesMean(v, v.cfg.compute(rows), rows);
  }

  /** The loaded total is right for `y`, whose answers may be there. */
  lemma LoadedIsRight<V(!new)>(v: Service<V>, sc: Scope, r: Row, y: string)
    requires Lawful(v) && Serves(sc, "*", y)
    ensures Begins(v, sc, Loaded2(v, r, v.cfg.compute(WithPrefix(v.cfg, [r], y))))
  {
    var rows := WithPrefix(v.cfg, [r], y);
    var t := v.cfg.compute(rows);
    OneRow(v.cfg, r, y);
    RowsOfOne(v, Loaded2(v, r, t).days, r, y);
    ComputedTotals(v, rows);
    OneLoaded(v, sc, Loaded2(v, r, t), y, t);
  }

  lemma OneLoaded<V(!new)>(v: Service<V>, sc: Scope, w: World<V>, y: string, t: map<string, V>)
    requires Serves(sc, "*", y) && TotalRight(v, w.days, y, v.release, t) && v.release < w.days.clock
    requires w.totals == map["*" := map[v.release := t]] && w.calls == []
    requires w.days.requests == [] && w.days.workers == map[] && w.days.cache == map[]
    ensures Begins(v, sc, w)
  {
    assert TotalOk(v, sc, w.days, "*", v.release, t);
  }

  /** A call that has read the clock on the day after the release. */
  function Waiting2<V>(v: Service<V>, today: nat): Call<V> {
    Call(today, 0, None, map[], v.release, false)
  }

  lemma MixedTake<V(!new)>(v: Service<V>, w: World<V>, db: map<nat, seq<Row>>, x: string, rows: seq<Row>)
    requires w.days == Answered2(v, db, x, rows) && w.calls == [Waiting2(v, v.release + 1)] && CachePrefix(x) in w.totals
    ensures Next(v, w, Take(0, 0)) == w.(calls := [Waiting2(v, v.release + 1).(request := Some(0))])
    ensures Calm(v, w, Take(0, 0))
  {
    assert Takes(v, w, 0, 0);
  }

  /** The call as it takes over the cached total of the release day. */
  function TakenOver<V>(v: Service<V>, t: map<string, V>): Call<V> {
    Waiting2(v, v.release + 1).(request := Some(0), results := map[v.release := v.copy(t)], next := v.release + 1)
  }

  lemma MixedCheck<V(!new)>(v: Service<V>, w: World<V>, db: map<nat, seq<Row>>, x: string, rows: seq<Row>, t: map<string, V>)
    requires w.days == Answered2(v, db, x, rows) && w.calls == [Waiting2(v, v.release + 1).(request := Some(0))]
    requires CachePrefix(x) == "*" && w.totals == map["*" := map[v.release := t]] && v.release !in v.cfg.skip
    ensures Next(v, w, CheckDate(0)) == w.(calls := [TakenOver(v, t)])
  {
    assert Ongoing(w, 0) && PrefixOf(w, 0) == "*";
    assert Checked(v, w, 0) == TakenOver(v, t);
  }

  /** Asking for `x` where the cache holds a total for `y`: the call takes it over. */
  lemma MixedRun<V(!new)>(v: Service<V>, sc: Scope, r: Row, x: string, y: string) returns (run: seq<Event>)
    requires Lawful(v) && v.release !in v.cfg.skip
    requires x in sc.asked && Serves(sc, "*", y) && CachePrefix(x) == "*"
    ensures var t := v.cfg.compute(WithPrefix(v.cfg, [r], y)); var w0 := Loaded2(v, r, t);
      LeadsTo(v, sc, w0, run, true,
              World(Answered2(v, w0.days.db, x, [r]), w0.totals, [TakenOver(v, t)]))
  {
    var t, rows := v.cfg.compute(WithPrefix(v.cfg, [r], y)), [r];
    var w0: World<V> := Loaded2(v, r, t);
    LoadedIsRight(v, sc, r, y);
    assert LeadsTo(v, sc, w0, [], true, w0);
    var w1: World<V> := w0.(calls := [Waiting2(v, v.release + 1)]);
    run := OneOn(v, sc, w0, [], true, w0, Read, w1);
    assert BothDays(v, w0.days.db, rows);
    run := AnswersBoth(v, sc, w0, run, true, w1, w0.days.db, x, rows);
    var w2: World<V> := w1.(days := Answered2(v, w0.days.db, x, rows));
    run := MixedEnd(v, sc, w0, run, w2, w0.days.db, x, rows, t);
  }

  lemma MixedEnd<V(!new)>(v: Service<V>, sc: Scope, w0: World<V>, run: seq<Event>, w: World<V>,
                          db: map<nat, seq<Row>>, x: string, rows: seq<Row>, t: map<string, V>)
    returns (run': seq<Event>)
    requires LeadsTo(v, sc, w0, run, true, w) && w.days == Answered2(v, db, x, rows)
    requires w.calls == [Waiting2(v, v.release + 1)] && w.totals == map["*" := map[v.release := t]]
    requires CachePrefix(x) == "*" && v.release !in v.cfg.skip
    ensures LeadsTo(v, sc, w0, run', true, w.(calls := [TakenOver(v, t)]))
  {
    MixedTake(v, w, db, x, rows);
    var w3: World<V> := w.(calls := [Waiting2(v, v.release + 1).(request := Some(0))]);
    run' := OneOn(v, sc, w0, run, true, w, Take(0, 0), w3);
    MixedCheck(v, w3, db, x, rows, t);
    run' := OneOn(v, sc, w0, run', true, w3, CheckDate(0), w.(calls := [TakenOver(v, t)]));
  }

  /** Asking for one of "" and "*" where totals for the other may be cached goes wrong. */
  lemma MixedGoesWrong<V(!new)>(v: Service<V>, sc: Scope, rowAt: string -> Row, c: string, x: string)
    requires Lawful(v) && v.release !in v.cfg.skip && Shows(v, rowAt, c, x) && !Unmixed(sc)
    ensures !RightInCalmRuns(v, sc)
  {
    var asked, cached := "*", "";
    if "" in sc.asked && Known(sc, "*") {
      asked, cached := "", "*";
    }
    var r := rowAt("1");
    assert v.cfg.key(rowAt("1")) == "1";
    var t := v.cfg.compute(WithPrefix(v.cfg, [r], cached));
    var w0 := Loaded2(v, r, t);
    var run := MixedRun(v, sc, r, asked, cached);
    MixedReadsWrong(v, After(v, w0, run), r, asked, cached, c, x);
    assert !AllRight(v, sc, After(v, w0, run));
  }

  /** The two prefixes select different rows. */
  lemma TotalsDiffer<V(!new)>(v: Service<V>, r: Row, asked: string, cached: string, c: string, x: string)
    requires Lawful(v) && ((asked == "" && cached == "*") || (asked == "*" && cached == ""))
    requires v.cfg.key(r) == "1" && Weight(v.cell(c, x), r) != 0.0
    ensures !Totals(v, v.copy(v.cfg.compute(WithPrefix(v.cfg, [r], cached))), WithPrefix(v.cfg, [r], asked))
  {
    var t := v.cfg.compute(WithPrefix(v.cfg, [r], cached));
    OneRow(v.cfg, r, "");
    OneRow(v.cfg, r, "*");
    assert "1"[0] != "*"[0];
    TotalOfOne(v.cell(c, x), r);
    ComputedTotals(v, WithPrefix(v.cfg, [r], cached));
    assert CopyKeeps(v, t, c, x);
    assert v.look(v.copy(t), c, x) == Total(v.cell(c, x), WithPrefix(v.cfg, [r], cached));
  }

  lemma MixedReadsWrong<V(!new)>(v: Service<V>, w: World<V>, r: Row, asked: string, cached: string, c: string, x: string)
    requires Lawful(v) && ((asked == "" && cached == "*") || (asked == "*" && cached == ""))
    requires v.cfg.key(r) == "1" && Weight(v.cell(c, x), r) != 0.0
    requires w.calls == [TakenOver(v, v.cfg.compute(WithPrefix(v.cfg, [r], cached)))]
    requires w.days == Answered2(v, map[v.release := [r], v.release + 1 := [r]], asked, [r])
    ensures !AllResultsOk(v, w)
  {
    var t := v.copy(v.cfg.compute(WithPrefix(v.cfg, [r], cached)));
    OneRow(v.cfg, r, asked);
    RowsOfOne(v, w.days, r, asked);
    FirstDue(v, w.days, r, asked);
    TotalsDiffer(v, r, asked, cached, c, x);
    assert !ResultOk(v, w.days, 0, v.release, t);
    assert w.calls[0].results[v.release] == t;
    assert !ResultsOk(v, w.days, w.calls[0]);
  }

  lemma TotalOfOne(q: Query, r: Row)
    ensures Total(q, [r]) == Weight(q, r) && Total(q, []) == 0.0
  {
    assert [r][..0] == [];
  }

  /** What is due for the release day is what the database holds. */
  lemma FirstDue<V(!new)>(v: Service<V>, s: State<Row, V>, r: Row, asked: string)
    requires s == Answered2(v, map[v.release := [r], v.release + 1 := [r]], asked, [r])
    ensures DueUpTo(v, s, 0, v.release + 1) == RowsUpTo(v, s, asked, v.release + 1)
  {
    assert DueUpTo(v, s, 0, v.release) == [] && RowsUpTo(v, s, asked, v.release) == [];
    assert DueOn(v, s, 0, v.release) == RowsFor(v.cfg, s, asked, v.release);
  }

  /** Exactly when running totals are right in all runs without a midnight inside a call:
      nobody asks for one of "" and "*" where totals for the other may be cached. */
  lemma TotalsRightIff<V(!new)>(v: Service<V>, sc: Scope, rowAt: string -> Row, c: string, x: string)
    requires Lawful(v) && v.release !in v.cfg.skip && Shows(v, rowAt, c, x)
    ensures RightInCalmRuns(v, sc) <==> Unmixed(sc)
  {
    if Unmixed(sc) {
      UnmixedIsRight(v, sc);
    } else {
      MixedGoesWrong(v, sc, rowAt, c, x);
    }
  }

  lemma UnmixedIsRight<V(!new)>(v: Service<V>, sc: Scope)
    requires Lawful(v) && Unmixed(sc)
    ensures RightInCalmRuns(v, sc)
  {
    forall w0: World<V>, run | RunOf(v, sc, w0, run) && CalmRun(v, w0, run) ensures AllRight(v, sc, After(v, w0, run)) {
      AfterKeeps(v, sc, w0, run);
    }
  }

  // ----- a midnight inside a call -----

  /** The day of the release, with nothing cached and no rows. */
  function Eve<V>(v: Service<V>): World<V> {
    World(State(v.release, map[], [], map[], [], map[]), map[], [])
  }

  /** A call that read the clock on the release day goes on with a request of the day after. */
  function Going<V>(v: Service<V>, results: map<nat, map<string, V>>, next: nat, pending: bool): Call<V> {
    Call(v.release, 0, Some(0), results, next, pending)
  }

  /** Its totals: the empty release day, and the next day before anything has happened on it. */
  function FirstOf<V>(v: Service<V>): map<string, V> { v.copy(v.cfg.compute([])) }
  function SecondOf<V>(v: Service<V>): map<string, V> { v.move(FirstOf(v), v.cfg.compute([])) }

  function Morning<V>(v: Service<V>, x: string, call: Call<V>, dates: map<nat, map<string, V>>): World<V> {
    World(Answered2(v, map[], x, []), map[CachePrefix(x) := dates], [call])
  }

  lemma ReadAndMidnight<V(!new)>(v: Service<V>, sc: Scope, x: string) returns (run: seq<Event>)
    requires Lawful(v) && x in sc.asked
    ensures LeadsTo(v, sc, Eve(v), run, false, World(Answered2(v, map[], x, []), map[], [Waiting2(v, v.release)]))
  {
    var w0: World<V> := Eve(v);
    assert LeadsTo(v, sc, w0, [], false, w0);
    var w1: World<V> := w0.(calls := [Waiting2(v, v.release)]);
    run := OneOn(v, sc, w0, [], false, w0, Read, w1);
    run := BaseOn(v, sc, w0, run, false, w1, Tick, Fresh(v, map[]));
    assert BothDays(v, map[], []);
    run := AnswersBoth(v, sc, w0, run, false, w1.(days := Fresh(v, map[])), map[], x, []);
  }

  lemma LateTake<V(!new)>(v: Service<V>, x: string)
    ensures Next(v, World(Answered2(v, map[], x, []), map[], [Waiting2(v, v.release)]), Take(0, 0))
         == Morning(v, x, Going(v, map[], v.release, false), map[])
  {
    var w: World<V> := World(Answered2(v, map[], x, []), map[], [Waiting2(v, v.release)]);
    assert Takes(v, w, 0, 0);
  }

  lemma FirstDate<V(!new)>(v: Service<V>, x: string)
    ensures var r := v.release;
      Next(v, Morning(v, x, Going(v, map[], r, false), map[]), CheckDate(0))
      == Morning(v, x, Going(v, map[r := FirstOf(v)], r, true), map[])
    ensures var r := v.release;
      Next(v, Morning(v, x, Going(v, map[r := FirstOf(v)], r, true), map[]), SaveDate(0))
      == Morning(v, x, Going(v, map[r := FirstOf(v)], r + 1, false), map[])
  {
    var w := Morning(v, x, Going(v, map[], v.release, false), map[]);
    assert Ongoing(w, 0) && NextTotal(v, w, 0) == FirstOf(v);
  }

  /** The first date done, the second computed, and the second stored. */
  function FirstDone<V>(v: Service<V>, x: string): World<V> {
    Morning(v, x, Going(v, map[v.release := FirstOf(v)], v.release + 1, false), map[])
  }

  function SecondPending<V>(v: Service<V>, x: string): World<V> {
    Morning(v, x, Going(v, map[v.release := FirstOf(v), v.release + 1 := SecondOf(v)], v.release + 1, true), map[])
  }

  function Called<V>(v: Service<V>, x: string): World<V> {
    var r := v.release;
    Morning(v, x, Going(v, map[r := FirstOf(v), r + 1 := SecondOf(v)], r + 2, false), map[r + 1 := SecondOf(v)])
  }

  lemma SecondComputed<V(!new)>(v: Service<V>, x: string)
    ensures Next(v, FirstDone(v, x), CheckDate(0)) == SecondPending(v, x)
  {
    var w := FirstDone(v, x);
    assert Ongoing(w, 0) && NextTotal(v, w, 0) == SecondOf(v);
    assert Checked(v, w, 0) == SecondPending(v, x).calls[0];
  }

  lemma SecondStored<V(!new)>(v: Service<V>, x: string)
    ensures Next(v, SecondPending(v, x), SaveDate(0)) == Called(v, x)
  {
  }

  lemma ThroughFirst<V(!new)>(v: Service<V>, sc: Scope, x: string) returns (run: seq<Event>)
    requires Lawful(v) && x in sc.asked
    ensures LeadsTo(v, sc, Eve(v), run, false, FirstDone(v, x))
  {
    var r, w0 := v.release, Eve(v);
    run := ReadAndMidnight(v, sc, x);
    LateTake(v, x);
    var w2: World<V> := World(Answered2(v, map[], x, []), map[], [Waiting2(v, r)]);
    var w3: World<V> := Morning(v, x, Going(v, map[], r, false), map[]);
    run := OneOn(v, sc, w0, run, false, w2, Take(0, 0), w3);
    FirstDate(v, x);
    var w4: World<V> := Morning(v, x, Going(v, map[r := FirstOf(v)], r, true), map[]);
    run := OneOn(v, sc, w0, run, false, w3, CheckDate(0), w4);
    run := OneOn(v, sc, w0, run, false, w4, SaveDate(0), FirstDone(v, x));
  }

  /** The call goes through its dates and caches the total of the day that has just begun. */
  lemma CallsThrough<V(!new)>(v: Service<V>, sc: Scope, x: string) returns (run: seq<Event>)
    requires Lawful(v) && x in sc.asked
    ensures LeadsTo(v, sc, Eve(v), run, false, Called(v, x))
  {
    run := ThroughFirst(v, sc, x);
    SecondComputed(v, x);
    run := OneOn(v, sc, Eve(v), run, false, FirstDone(v, x), CheckDate(0), SecondPending(v, x));
    SecondStored(v, x);
    run := OneOn(v, sc, Eve(v), run, false, SecondPending(v, x), SaveDate(0), Called(v, x));
  }

  /** The same later: a row has arrived on the new day, and then the day is over. */
  function Arrived<V>(v: Service<V>, x: string, row: Row): World<V> {
    var w := Called(v, x);
    w.(days := w.days.(db := map[v.release + 1 := [row]]))
  }

  function NextMidnight<V>(v: Service<V>, x: string, row: Row): World<V> {
    var w := Arrived(v, x, row);
    w.(days := w.days.(clock := v.release + 2))
  }

  lemma ArrivesLater<V(!new)>(v: Service<V>, x: string, row: Row)
    ensures Next(v, Called(v, x), Base(Ingest(row))) == Arrived(v, x, row)
    ensures Next(v, Arrived(v, x, row), Base(Tick)) == NextMidnight(v, x, row)
  {
    assert [] + [row] == [row];
  }

  /** A whole run from empty caches: a call reads the clock, midnight falls, its daily request
      reads the clock, and the call caches the total of the new day. A row that arrives later
      on that day is missing from the cached total for good. */
  lemma MidnightRun<V(!new)>(v: Service<V>, sc: Scope, x: string, row: Row) returns (run: seq<Event>)
    requires Lawful(v) && x in sc.asked
    ensures RunOf(v, sc, Eve(v), run) && After(v, Eve(v), run) == NextMidnight(v, x, row)
  {
    run := CallsThrough(v, sc, x);
    ArrivesLater(v, x, row);
    run := OneOn(v, sc, Eve(v), run, false, Called(v, x), Base(Ingest(row)), Arrived(v, x, row));
    run := OneOn(v, sc, Eve(v), run, false, Arrived(v, x, row), Base(Tick), NextMidnight(v, x, row));
  }

  lemma NothingYet<V(!new)>(v: Service<V>, c: string, x: string)
    requires Lawful(v)
    ensures v.look(SecondOf(v), c, x) == 0.0
  {
    var empty := v.cfg.compute([]);
    ComputedTotals(v, []);
    assert v.look(empty, c, x) == Total(v.cell(c, x), []) == 0.0;
    assert CopyKeeps(v, empty, c, x) && MoveAdds(v, FirstOf(v), empty, c, x);
  }

  lemma RowsOfSecond<V(!new)>(v: Service<V>, s: State<Row, V>, row: Row, q: string)
    requires s.db == map[v.release + 1 := [row]] && q <= v.cfg.key(row)
    ensures RowsUpTo(v, s, q, v.release + 2) == [row]
  {
    OneRow(v.cfg, row, q);
    assert RowsUpTo(v, s, q, v.release) == [] && RowsUpTo(v, s, q, v.release + 1) == [];
    assert [] + [row] == [row];
  }

  lemma MidnightReadsWrong<V(!new)>(v: Service<V>, sc: Scope, x: string, row: Row, c: string, k: string)
    requires Lawful(v) && v.cfg.key(row) == CachePrefix(x) && Weight(v.cell(c, k), row) != 0.0
    ensures var w := NextMidnight(v, x, row);
      v.look(w.totals[CachePrefix(x)][v.release + 1], c, k) == 0.0
      && !TotalOk(v, sc, w.days, CachePrefix(x), v.release + 1, w.totals[CachePrefix(x)][v.release + 1])
  {
    var w, p := NextMidnight(v, x, row), CachePrefix(x);
    NothingYet(v, c, k);
    TotalOfOne(v.cell(c, k), row);
    forall q | Serves(sc, p, q) ensures !TotalRight(v, w.days, q, v.release + 1, SecondOf(v)) {
      assert q <= p;
      RowsOfSecond(v, w.days, row, q);
    }
  }

  /** Where midnights may fall inside calls, running totals are right in all runs only if
      nobody ever asks for any. */
  lemma RightDespiteMidnightsIff<V(!new)>(v: Service<V>, sc: Scope, rowAt: string -> Row, c: string, k: string)
    requires Lawful(v) && Shows(v, rowAt, c, k)
    ensures RightInAllRuns(v, sc) <==> sc.asked == iset{}
  {
    if sc.asked == iset{} {
      forall w0: World<V>, run | RunOf(v, sc, w0, run) ensures AllRight(v, sc, After(v, w0, run)) {
        NobodyAsks(v, sc, w0, run);
        AfterKeeps(v, sc, w0, run);
      }
    } else {
      var x :| x in sc.asked;
      var p := CachePrefix(x);
      var row := rowAt(p);
      assert v.cfg.key(rowAt(p)) == p;
      var run := MidnightRun(v, sc, x, row);
      MidnightReadsWrong(v, sc, x, row, c, k);
      assert !AllTotalsOk(v, sc, After(v, Eve(v), run));
      assert !AllRight(v, sc, After(v, Eve(v), run));
    }
  }

  lemma {:induction false} NobodyAsked<V(!new)>(v: Service<V>, sc: Scope, w0: World<V>, run: seq<Event>)
    requires sc.asked == iset{} && RunOf(v, sc, w0, run)
    ensures After(v, w0, run).days.requests == []
  {
    if run != [] {
      var n := |run| - 1;
      NobodyAsked(v, sc, w0, run[..n]);
      StillNobody(v, sc, After(v, w0, run[..n]), run[n]);
    }
  }

  /** Without requests no call takes one, so every run is calm. */
  lemma NobodyAsks<V(!new)>(v: Service<V>, sc: Scope, w0: World<V>, run: seq<Event>)
    requires sc.asked == iset{} && RunOf(v, sc, w0, run)
    ensures CalmRun(v, w0, run)
  {
    forall k | 0 <= k < |run| ensures Calm(v, After(v, w0, run[..k]), run[k]) {
      NobodyAsked(v, sc, w0, run[..k]);
      StillNobody(v, sc, After(v, w0, run[..k]), run[k]);
    }
  }

  lemma StillNobody<V(!new)>(v: Service<V>, sc: Scope, w: World<V>, e: Event)
    requires sc.asked == iset{} && InScope(e, sc) && w.days.requests == []
    ensures Next(v, w, e).days.requests == [] && Calm(v, w, e)
  {
  }
}
