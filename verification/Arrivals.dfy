/** What runs of the daily service do, seen from outside: the database holds what arrived,
    requests are what was asked for, and answers account for what was there. */
module Arrivals {
  import opened DayCache
  import opened DayCacheProofs
  import opened Transparency

  /** The midnights of a run. */
  function Ticks<Row>(run: seq<Action<Row>>): nat {
    if run == [] then 0 else Ticks(run[..|run| - 1]) + (if run[|run| - 1].Tick? then 1 else 0)
  }

  /** The rows that arrive on day `d` in a run that starts on day `clock`, in order. */
  function Arrived<Row>(clock: nat, run: seq<Action<Row>>, d: nat): seq<Row> {
    if run == [] then []
    else
      var init, a := run[..|run| - 1], run[|run| - 1];
      Arrived(clock, init, d) + (if a.Ingest? && clock + Ticks(init) == d then [a.row] else [])
  }

  /** Each day of the database holds what it held at first and then exactly what has arrived
      on it since, in order. */
  lemma {:induction false} DatabaseHolds<Row(!new), V(!new)>(
    cfg: Config<Row, V>, s0: State<Row, V>, run: seq<Action<Row>>, d: nat)
    ensures Run(cfg, s0, run).clock == s0.clock + Ticks(run)
    ensures RowsOn(Run(cfg, s0, run), d) == RowsOn(s0, d) + Arrived(s0.clock, run, d)
  {
    if run != [] {
      var init := run[..|run| - 1];
      DatabaseHolds(cfg, s0, init, d);
      OneArrives(cfg, Run(cfg, s0, init), run[|run| - 1], d);
    }
  }

  lemma OneArrives<Row(!new), V(!new)>(cfg: Config<Row, V>, s: State<Row, V>, a: Action<Row>, d: nat)
    ensures Step(cfg, s, a).clock == s.clock + (if a.Tick? then 1 else 0)
    ensures RowsOn(Step(cfg, s, a), d) == RowsOn(s, d) + (if a.Ingest? && s.clock == d then [a.row] else [])
  {
  }

  /** Asking starts a request for all days from the first one given to the day of the clock,
      and leaves all other requests alone. */
  lemma BeginAsks<Row(!new), V(!new)>(cfg: Config<Row, V>, s: State<Row, V>, prefix: string, first: nat)
    requires first <= s.clock
    ensures var s' := Step(cfg, s, Begin(prefix, first)); var n := |s.requests|;
      |s'.requests| == n + 1 && (forall i :: 0 <= i < n ==> s'.requests[i] == s.requests[i])
      && s'.requests[n].prefix == prefix && s'.requests[n].first == first && s'.requests[n].now == s.clock
      && s'.requests[n].stage.Running?
      && forall d: nat | first <= d <= s.clock :: (n, d) in s'.workers && s'.workers[(n, d)].Waiting?
  {
    assert Step(cfg, s, Begin(prefix, first)).workers == s.workers + NewWorkers(|s.requests|, first, s.clock);
  }

  /** The request's own day, and days for which the cache is overridden, are always read from
      the database. */
  lemma NotFromCache<Row(!new), V(!new)>(cfg: Config<Row, V>, s: State<Row, V>, i: nat, d: nat)
    requires Has(s, i, d) && s.workers[(i, d)].Waiting? && (d == s.requests[i].now || d in cfg.skip)
    ensures var s' := Step(cfg, s, Check(i, d)); (i, d) in s'.workers && s'.workers[(i, d)].Fetching?
  {
  }

  /** The chains a request collects are exactly those its days name. */
  lemma {:induction false} CollectsExactly<Row(!new), V(!new)>(
    cfg: Config<Row, V>, s: State<Row, V>, i: nat, lo: nat, hi: nat, c: string)
    ensures c in SeenChains(cfg, s, i, lo, hi) <==>
              exists d: nat :: lo <= d < hi && c in cfg.chains(AnswerTable(s, i, d))
    decreases hi
  {
    if hi > lo {
      CollectsExactly(cfg, s, i, lo, hi - 1, c);
      if c in cfg.chains(AnswerTable(s, i, hi - 1)) {
        assert lo <= hi - 1 < hi;
      }
    }
  }

  /** A worker of today is done, and it became so in step `k`, when it read the day. */
  ghost predicate ReadAt<Row(!new), V(!new)>(
    cfg: Config<Row, V>, s0: State<Row, V>, run: seq<Action<Row>>, i: nat, d: nat, k: nat)
  {
    k < |run| && run[k] == Fetch(i, d)
    && Has(Run(cfg, s0, run), i, d) && Run(cfg, s0, run).workers[(i, d)].Done?
    && Run(cfg, s0, run).workers[(i, d)].rows == RowsOn(Run(cfg, s0, run[..k]), d)
  }

  /** What an answer for the day of the request accounts for is what the database held in the
      very step in which its worker read the day. */
  lemma {:induction false} TodayAsRead<Row(!new), V(!new)>(
    cfg: Config<Row, V>, s0: State<Row, V>, run: seq<Action<Row>>, i: nat, d: nat) returns (k: nat)
    requires Sound(cfg) && Init(cfg, EVERY, s0)
    requires var s := Run(cfg, s0, run); Has(s, i, d) && s.workers[(i, d)].Done? && d == s.requests[i].now
    ensures ReadAt(cfg, s0, run, i, d, k)
  {
    var n := |run| - 1;
    var s := Run(cfg, s0, run[..n]);
    RunKeeps(cfg, EVERY, s0, run[..n]);
    BecomesDone(cfg, s, run[n], i, d);
    if Has(s, i, d) && s.workers[(i, d)].Done? {
      k := TodayAsRead(cfg, s0, run[..n], i, d);
      assert run[..n][..k] == run[..k];
    } else {
      k := n;
    }
  }

  /** The worker is done, for the request's own day. */
  ghost predicate DoneToday<Row(!new), V(!new)>(s: State<Row, V>, i: nat, d: nat) {
    Has(s, i, d) && s.workers[(i, d)].Done? && d == s.requests[i].now
  }

  lemma BecomesDone<Row(!new), V(!new)>(cfg: Config<Row, V>, s: State<Row, V>, a: Action<Row>, i: nat, d: nat)
    requires Inv(cfg, EVERY, s) && DoneToday(Step(cfg, s, a), i, d)
    ensures if Has(s, i, d) && s.workers[(i, d)].Done?
            then DoneToday(s, i, d) && s.workers[(i, d)] == Step(cfg, s, a).workers[(i, d)]
            else a == Fetch(i, d) && Step(cfg, s, a).workers[(i, d)].rows == RowsOn(s, d)
  {
    if (i, d) in s.workers { assert WorkerOk(cfg, EVERY, s, (i, d), s.workers[(i, d)]); }
    if a.Check? || a.Fetch? || a.Store? {
      DoneByWorker(cfg, s, a, i, d);
    } else if a.Begin? {
      if a.first <= s.clock {
        assert Step(cfg, s, a).workers == s.workers + NewWorkers(|s.requests|, a.first, s.clock);
      }
    } else {
      DoneByOthers(cfg, s, a, i, d);
    }
  }

  lemma DoneByOthers<Row(!new), V(!new)>(cfg: Config<Row, V>, s: State<Row, V>, a: Action<Row>, i: nat, d: nat)
    requires !a.Check? && !a.Fetch? && !a.Store? && !a.Begin?
    ensures Step(cfg, s, a).workers == s.workers && |Step(cfg, s, a).requests| == |s.requests|
    ensures i < |s.requests| ==> Step(cfg, s, a).requests[i].now == s.requests[i].now
  {
  }

  lemma DoneByWorker<Row(!new), V(!new)>(cfg: Config<Row, V>, s: State<Row, V>, a: Action<Row>, i: nat, d: nat)
    requires a.Check? || a.Fetch? || a.Store?
    requires DoneToday(Step(cfg, s, a), i, d)
    requires (i, d) in s.workers ==> WorkerOk(cfg, EVERY, s, (i, d), s.workers[(i, d)])
    ensures if Has(s, i, d) && s.workers[(i, d)].Done?
            then DoneToday(s, i, d) && s.workers[(i, d)] == Step(cfg, s, a).workers[(i, d)]
            else a == Fetch(i, d) && Step(cfg, s, a).workers[(i, d)].rows == RowsOn(s, d)
  {
  }
}
