/** What callers of the day cache get, in every run: answers that do not depend on the
    cache, exactly as long as the prefixes "" and "*" are not mixed. */
module Transparency {
  import opened DayCache
  import opened DayCacheProofs

  /** A worker has finished after the run. */
  ghost predicate Answered<Row(!new), V(!new)>(
    cfg: Config<Row, V>, sc: Scope, s0: State<Row, V>, run: seq<Action<Row>>, i: nat, d: nat)
  {
    Init(cfg, sc, s0) && AsksWithin(run, sc)
    && Has(Run(cfg, s0, run), i, d) && Run(cfg, s0, run).workers[(i, d)].Done?
  }

  /** The rows of the day that an answer must account for: for a past day, all that the
      database holds for it; for today, those it held when the worker read it. */
  function Held<Row, V>(s: State<Row, V>, i: nat, d: nat): seq<Row>
    requires Has(s, i, d) && s.workers[(i, d)].Done?
  {
    if d < s.requests[i].now then RowsOn(s, d) else s.workers[(i, d)].rows
  }

  /** Those of them under prefix `q`. */
  function Due<Row, V>(cfg: Config<Row, V>, s: State<Row, V>, i: nat, d: nat, q: string): seq<Row>
    requires Has(s, i, d) && s.workers[(i, d)].Done?
  {
    WithPrefix(cfg, Held(s, i, d), q)
  }

  // ----- which rows a range query returns -----

  lemma OneRow<Row, V>(cfg: Config<Row, V>, r: Row, prefix: string)
    ensures WithPrefix(cfg, [r], prefix) == if prefix <= cfg.key(r) then [r] else []
  {
    assert [r][..0] == [];
  }

  /** It goes row by row, in order. */
  lemma {:induction false} WithPrefixAppend<Row, V>(cfg: Config<Row, V>, a: seq<Row>, b: seq<Row>, prefix: string)
    ensures WithPrefix(cfg, a + b, prefix) == WithPrefix(cfg, a, prefix) + WithPrefix(cfg, b, prefix)
  {
    if b == [] {
      assert a + b == a;
    } else {
      var n := |b| - 1;
      assert (a + b)[..|a + b| - 1] == a + b[..n] && (a + b)[|a + b| - 1] == b[n];
      WithPrefixAppend(cfg, a, b[..n], prefix);
    }
  }

  /** It returns every row as often as the day has it if its key starts with the prefix, and
      no other row. */
  lemma {:induction false} WithPrefixExact<Row, V>(cfg: Config<Row, V>, rows: seq<Row>, prefix: string, r: Row)
    ensures multiset(WithPrefix(cfg, rows, prefix))[r] == if prefix <= cfg.key(r) then multiset(rows)[r] else 0
  {
    if rows != [] {
      var init, last := rows[..|rows| - 1], rows[|rows| - 1];
      WithPrefixExact(cfg, init, prefix, r);
      assert rows == init + [last];
    }
  }

  /** The answer reads like a fresh aggregation for prefix `q`. */
  ghost predicate AnswersFor<Row(!new), V(!new)>(cfg: Config<Row, V>, s: State<Row, V>, i: nat, d: nat, q: string)
    requires Has(s, i, d) && s.workers[(i, d)].Done?
  {
    Same(cfg, AnswerTable(s, i, d), cfg.compute(Due(cfg, s, i, d, q)))
  }

  /** The answer is right for some prefix whose answers may be in the request's cache. */
  ghost predicate AnswersForSome<Row(!new), V(!new)>(
    cfg: Config<Row, V>, sc: Scope, s: State<Row, V>, i: nat, d: nat)
    requires Has(s, i, d) && s.workers[(i, d)].Done?
  {
    exists q :: Serves(sc, CachePrefix(s.requests[i].prefix), q) && AnswersFor(cfg, s, i, d, q)
  }

  /** In every run, every answer reads like a fresh aggregation for a prefix that shares the
      request's cache, and for the request's own prefix unless "" and "*" are mixed. A past
      day that has been answered is in the cache for later requests. */
  lemma CacheTransparency<Row(!new), V(!new)>(
    cfg: Config<Row, V>, sc: Scope, s0: State<Row, V>, run: seq<Action<Row>>, i: nat, d: nat)
    requires Sound(cfg) && Answered(cfg, sc, s0, run, i, d)
    ensures AnswersForSome(cfg, sc, Run(cfg, s0, run), i, d)
    ensures var s := Run(cfg, s0, run);
      Unmixed(sc) ==> AnswersFor(cfg, s, i, d, s.requests[i].prefix)
    ensures var s := Run(cfg, s0, run); var p := CachePrefix(s.requests[i].prefix);
      d < s.requests[i].now ==> p in s.cache && d in s.cache[p]
  {
    RunKeeps(cfg, sc, s0, run);
    DoneMeansRight(cfg, sc, Run(cfg, s0, run), i, d);
  }

  lemma DoneMeansRight<Row(!new), V(!new)>(cfg: Config<Row, V>, sc: Scope, s: State<Row, V>, i: nat, d: nat)
    requires Inv(cfg, sc, s) && Has(s, i, d) && s.workers[(i, d)].Done?
    ensures AnswersForSome(cfg, sc, s, i, d)
    ensures Unmixed(sc) ==> AnswersFor(cfg, s, i, d, s.requests[i].prefix)
    ensures var p := CachePrefix(s.requests[i].prefix);
      d < s.requests[i].now ==> p in s.cache && d in s.cache[p]
  {
    var r, k := s.requests[i], s.workers[(i, d)];
    assert WorkerOk(cfg, sc, s, (i, d), k);
    assert RequestOk(cfg, sc, s, i);
    if d == r.now {
      assert Serves(sc, CachePrefix(r.prefix), r.prefix) && AnswersFor(cfg, s, i, d, r.prefix);
    } else {
      var q :| Serves(sc, CachePrefix(r.prefix), q) && ReadsLike(cfg, s, k.ref, q, d);
      assert Serves(sc, CachePrefix(s.requests[i].prefix), q) && AnswersFor(cfg, s, i, d, q);
      if Unmixed(sc) { ServedBySelf(sc, r.prefix, q); }
    }
  }

  lemma ServedBySelf(sc: Scope, x: string, q: string)
    requires Unmixed(sc) && x in sc.asked && Serves(sc, CachePrefix(x), q)
    ensures q == x
  {
  }

  // ----- exactly when answers do not depend on the cache -----

  ghost predicate Transparent<Row(!new), V(!new)>(cfg: Config<Row, V>, sc: Scope) {
    forall s0: State<Row, V>, run: seq<Action<Row>>, i: nat, d: nat | Answered(cfg, sc, s0, run, i, d) ::
      AnswersFor(cfg, Run(cfg, s0, run), i, d, Run(cfg, s0, run).requests[i].prefix)
  }

  /** A row that shows: its key does not start with "*", and its day reads otherwise than an
      empty day, of which `padded` is a table that would be reused. */
  ghost predicate Telling<Row(!new), V(!new)>(cfg: Config<Row, V>, r: Row, padded: map<string, V>) {
    !("*" <= cfg.key(r)) && !Same(cfg, cfg.compute([r]), cfg.compute([])) && cfg.usable(|cfg.compute([r])|)
    && Same(cfg, padded, cfg.compute([])) && cfg.usable(|padded|)
  }

  /** Over all runs from all rightly loaded caches, every answer is right for its prefix if
      and only if nobody asks for one of "" and "*" where answers for the other may be
      cached. */
  lemma TransparentIff<Row(!new), V(!new)>(cfg: Config<Row, V>, sc: Scope, r: Row, padded: map<string, V>)
    requires Sound(cfg) && Telling(cfg, r, padded)
    ensures Transparent(cfg, sc) <==> Unmixed(sc)
  {
    if Unmixed(sc) {
      forall s0, run, i: nat, d: nat | Answered(cfg, sc, s0, run, i, d)
        ensures AnswersFor(cfg, Run(cfg, s0, run), i, d, Run(cfg, s0, run).requests[i].prefix)
      {
        CacheTransparency(cfg, sc, s0, run, i, d);
      }
    } else {
      var d := FreeDay(cfg.skip);
      OneRow(cfg, r, "");
      OneRow(cfg, r, "*");
      if "*" in sc.asked && "" in sc.asked {
        WrongAfterRequest(cfg, sc, d, r);
      } else if "*" in sc.asked {
        WrongAfterLoad(cfg, sc, d, r, "*", "", cfg.compute([r]));
      } else {
        WrongAfterLoad(cfg, sc, d, r, "", "*", padded);
      }
    }
  }

  /** The case of a process whose loaded cache holds answers for any prefix but "*", as
      intended: requests may ask for whatever they want, except for "*". */
  lemma TransparentIffNoStar<Row(!new), V(!new)>(
    cfg: Config<Row, V>, asked: iset<string>, r: Row, padded: map<string, V>)
    requires Sound(cfg) && Telling(cfg, r, padded)
    ensures Transparent(cfg, Scope(ALL_BUT_STAR, asked)) <==> "*" !in asked
  {
    TransparentIff(cfg, Scope(ALL_BUT_STAR, asked), r, padded);
  }

  ghost predicate NotStar(q: string) { q != "*" }
  ghost const ALL_BUT_STAR := iset q: string | NotStar(q)

  lemma {:induction false} FreeDay(skip: set<nat>) returns (d: nat)
    ensures forall e <- skip :: e < d
  {
    d := 0;
    if skip != {} {
      var e :| e in skip;
      d := FreeDay(skip - {e});
      assert forall k <- skip :: k == e || k in skip - {e};
      if d <= e { d := e + 1; }
    }
  }

  // ----- a cached day answers every later request under the same cache key -----

  /** Day `d` is past and cached under `p`, as a table that is reused. */
  predicate Ready<Row, V(==)>(cfg: Config<Row, V>, s: State<Row, V>, p: string, d: nat, t: map<string, V>) {
    p in s.cache && d in s.cache[p] && s.cache[p][d] < |s.heap| && s.heap[s.cache[p][d]] == t
    && cfg.usable(|t|) && d !in cfg.skip && d < s.clock
  }

  lemma BeginsWaiting<Row(!new), V(!new)>(cfg: Config<Row, V>, s: State<Row, V>, x: string, d: nat)
    requires d < s.clock
    ensures var n := |s.requests|; var s' := Step(cfg, s, Begin(x, d));
      Has(s', n, d) && s'.requests[n] == Request(x, d, s.clock, s.clock - d + 1, Running)
      && s'.workers[(n, d)] == Waiting && s'.cache == s.cache && s'.heap == s.heap && s'.db == s.db
  {
  }

  lemma HitDone<Row(!new), V(!new)>(cfg: Config<Row, V>, s: State<Row, V>, n: nat, d: nat)
    requires Has(s, n, d) && s.workers[(n, d)].Waiting? && Hit(cfg, s, n, d)
    requires s.cache[CachePrefix(s.requests[n].prefix)][d] < |s.heap|
    ensures var s' := Step(cfg, s, Check(n, d));
      Has(s', n, d) && s'.workers[(n, d)].Done? && s'.requests[n].prefix == s.requests[n].prefix
      && s'.requests[n].now == s.requests[n].now && s'.db == s.db
      && AnswerTable(s', n, d) == s.heap[s.cache[CachePrefix(s.requests[n].prefix)][d]]
  {
  }

  lemma HitAnswers<Row(!new), V(!new)>(cfg: Config<Row, V>, s: State<Row, V>, x: string, d: nat, t: map<string, V>)
    requires Ready(cfg, s, CachePrefix(x), d, t)
    ensures var n := |s.requests|; var s' := Step(cfg, Step(cfg, s, Begin(x, d)), Check(n, d));
      Has(s', n, d) && s'.workers[(n, d)].Done? && AnswerTable(s', n, d) == t
      && s'.requests[n].prefix == x && d < s'.requests[n].now && s'.db == s.db
  {
    BeginsWaiting(cfg, s, x, d);
    HitDone(cfg, Step(cfg, s, Begin(x, d)), |s.requests|, d);
  }

  lemma RunTwo<Row(!new), V(!new)>(cfg: Config<Row, V>, s: State<Row, V>, run: seq<Action<Row>>, a: Action<Row>, b: Action<Row>)
    ensures Run(cfg, s, run + [a, b]) == Step(cfg, Step(cfg, Run(cfg, s, run), a), b)
  {
    var two := run + [a, b];
    assert two[..|two| - 1] == run + [a] && (run + [a])[..|run|] == run;
  }

  lemma WrongTable<Row(!new), V(!new)>(
    cfg: Config<Row, V>, s: State<Row, V>, n: nat, d: nat, x: string, db: map<nat, seq<Row>>)
    requires Has(s, n, d) && s.workers[(n, d)].Done? && d < s.requests[n].now && s.db == db
    requires !Same(cfg, AnswerTable(s, n, d), cfg.compute(WithPrefix(cfg, if d in db then db[d] else [], x)))
    ensures !AnswersFor(cfg, s, n, d, x)
  {
  }

  /** After a run that leaves day `d` cached wrongly for `x`, asking for `x` fails. */
  lemma AskingFails<Row(!new), V(!new)>(
    cfg: Config<Row, V>, sc: Scope, s0: State<Row, V>, run: seq<Action<Row>>, x: string, d: nat, t: map<string, V>)
    requires Init(cfg, sc, s0) && AsksWithin(run, sc) && x in sc.asked
    requires Ready(cfg, Run(cfg, s0, run), CachePrefix(x), d, t)
    requires !Same(cfg, t, cfg.compute(RowsFor(cfg, Run(cfg, s0, run), x, d)))
    ensures !Transparent(cfg, sc)
  {
    var n := |Run(cfg, s0, run).requests|;
    AskingHits(cfg, s0, run, x, d, t);
    AskingAsks(run, sc, x, d, n);
    NowWrong(cfg, sc, s0, run + [Begin(x, d), Check(n, d)], n, d, x, Run(cfg, s0, run).db);
  }

  lemma AskingAsks<Row(!new)>(run: seq<Action<Row>>, sc: Scope, x: string, d: nat, n: nat)
    requires AsksWithin(run, sc) && x in sc.asked
    ensures AsksWithin(run + [Begin(x, d), Check(n, d)], sc)
  {
  }

  lemma AskingHits<Row(!new), V(!new)>(
    cfg: Config<Row, V>, s0: State<Row, V>, run: seq<Action<Row>>, x: string, d: nat, t: map<string, V>)
    requires Ready(cfg, Run(cfg, s0, run), CachePrefix(x), d, t)
    ensures var n := |Run(cfg, s0, run).requests|; var s := Run(cfg, s0, run + [Begin(x, d), Check(n, d)]);
      Has(s, n, d) && s.workers[(n, d)].Done? && AnswerTable(s, n, d) == t
      && s.requests[n].prefix == x && d < s.requests[n].now && s.db == Run(cfg, s0, run).db
  {
    RunTwo(cfg, s0, run, Begin(x, d), Check(|Run(cfg, s0, run).requests|, d));
    HitAnswers(cfg, Run(cfg, s0, run), x, d, t);
  }

  lemma NowWrong<Row(!new), V(!new)>(
    cfg: Config<Row, V>, sc: Scope, s0: State<Row, V>, run: seq<Action<Row>>, n: nat, d: nat, x: string,
    db: map<nat, seq<Row>>)
    requires Answered(cfg, sc, s0, run, n, d)
    requires var s := Run(cfg, s0, run);
      s.requests[n].prefix == x && d < s.requests[n].now && s.db == db
      && !Same(cfg, AnswerTable(s, n, d), cfg.compute(WithPrefix(cfg, if d in db then db[d] else [], x)))
    ensures !Transparent(cfg, sc)
  {
    WrongTable(cfg, Run(cfg, s0, run), n, d, x, db);
    NotTransparent(cfg, sc, s0, run, n, d);
  }

  lemma NotTransparent<Row(!new), V(!new)>(
    cfg: Config<Row, V>, sc: Scope, s0: State<Row, V>, run: seq<Action<Row>>, i: nat, d: nat)
    requires Answered(cfg, sc, s0, run, i, d)
    requires !AnswersFor(cfg, Run(cfg, s0, run), i, d, Run(cfg, s0, run).requests[i].prefix)
    ensures !Transparent(cfg, sc)
  {
  }

  /** A process that has loaded day `d` with table `t`. */
  function Loaded<Row, V>(d: nat, r: Row, t: map<string, V>): State<Row, V> {
    State(d + 1, map[d := [r]], [t], map["*" := map[d := 0]], [], map[])
  }

  lemma LoadedIsRight<Row(!new), V(!new)>(
    cfg: Config<Row, V>, sc: Scope, d: nat, r: Row, y: string, t: map<string, V>)
    requires y in sc.loaded && CachePrefix(y) == "*" && Same(cfg, t, cfg.compute(WithPrefix(cfg, [r], y)))
    ensures Init(cfg, sc, Loaded(d, r, t))
  {
    var s := Loaded<Row, V>(d, r, t);
    assert Serves(sc, "*", y) && ReadsLike(cfg, s, 0, y, d);
    assert CacheOk(cfg, sc, s, "*", d, 0);
  }

  lemma WrongAfterLoad<Row(!new), V(!new)>(
    cfg: Config<Row, V>, sc: Scope, d: nat, r: Row, x: string, y: string, t: map<string, V>)
    requires x in sc.asked && y in sc.loaded && CachePrefix(x) == CachePrefix(y) == "*"
    requires d !in cfg.skip && cfg.usable(|t|)
    requires Same(cfg, t, cfg.compute(WithPrefix(cfg, [r], y)))
    requires !Same(cfg, t, cfg.compute(WithPrefix(cfg, [r], x)))
    ensures !Transparent(cfg, sc)
  {
    LoadedIsRight(cfg, sc, d, r, y, t);
    AskingFails(cfg, sc, Loaded(d, r, t), [], x, d, t);
  }

  // ----- a first request fills an empty cache -----

  /** One past row, and nothing cached. */
  function Cold<Row, V>(d: nat, r: Row): State<Row, V> {
    State(d + 1, map[d := [r]], [], map[], [], map[])
  }

  function FirstRequest<Row>(y: string, d: nat): seq<Action<Row>> {
    [Begin(y, d), Check(0, d), Fetch(0, d), Store(0, d)]
  }

  lemma FirstRequestCaches<Row(!new), V(!new)>(cfg: Config<Row, V>, d: nat, r: Row, y: string)
    ensures var s := Run(cfg, Cold(d, r), FirstRequest(y, d)); var p := CachePrefix(y);
      s.db == map[d := [r]] && s.clock == d + 1 && |s.requests| == 1
      && p in s.cache && d in s.cache[p] && s.cache[p][d] < |s.heap|
      && s.heap[s.cache[p][d]] == cfg.compute(WithPrefix(cfg, [r], y))
  {
    var s0, run := Cold<Row, V>(d, r), FirstRequest(y, d);
    RunTwo(cfg, s0, [], run[0], run[1]);
    RunTwo(cfg, s0, run[..2], run[2], run[3]);
    assert run == run[..2] + [run[2], run[3]] && run[..2] == [] + [run[0], run[1]];
    ColdCheck(cfg, d, r, y);
    ColdFetch(cfg, Step(cfg, Step(cfg, s0, Begin(y, d)), Check(0, d)), d, r, y);
  }

  lemma ColdCheck<Row(!new), V(!new)>(cfg: Config<Row, V>, d: nat, r: Row, y: string)
    ensures var s := Step(cfg, Step(cfg, Cold(d, r), Begin(y, d)), Check(0, d));
      s.requests == [Request(y, d, d + 1, 2, Running)] && s.clock == d + 1 && s.db == map[d := [r]]
      && s.heap == [cfg.start] && s.cache == map[CachePrefix(y) := map[]]
      && (0, d) in s.workers && s.workers[(0, d)] == Fetching(0)
  {
    var s1 := Step(cfg, Cold<Row, V>(d, r), Begin(y, d));
    assert s1.requests == [Request(y, d, d + 1, 2, Running)] && s1.workers[(0, d)] == Waiting;
  }

  lemma ColdFetch<Row(!new), V(!new)>(cfg: Config<Row, V>, s: State<Row, V>, d: nat, r: Row, y: string)
    requires s.requests == [Request(y, d, d + 1, 2, Running)] && s.clock == d + 1 && s.db == map[d := [r]]
    requires s.heap == [cfg.start] && s.cache == map[CachePrefix(y) := map[]]
    requires (0, d) in s.workers && s.workers[(0, d)] == Fetching(0)
    ensures var s' := Step(cfg, Step(cfg, s, Fetch(0, d)), Store(0, d)); var p := CachePrefix(y);
      s'.db == s.db && s'.clock == s.clock && |s'.requests| == 1
      && p in s'.cache && d in s'.cache[p] && s'.cache[p][d] < |s'.heap|
      && s'.heap[s'.cache[p][d]] == cfg.compute(WithPrefix(cfg, [r], y))
  {
    var rows := WithPrefix(cfg, [r], y);
    var s' := Step(cfg, s, Fetch(0, d));
    assert s'.workers[(0, d)] == Storing(0, [r]) && s'.heap == [cfg.compute(rows)];
  }

  /** A second request under the same cache key gets the first one's table. */
  lemma SecondRequestHits<Row(!new), V(!new)>(cfg: Config<Row, V>, d: nat, r: Row, y: string, x: string)
    requires CachePrefix(x) == CachePrefix(y) && d !in cfg.skip
    requires cfg.usable(|cfg.compute(WithPrefix(cfg, [r], y))|)
    ensures var s := Run(cfg, Cold(d, r), FirstRequest(y, d) + [Begin(x, d), Check(1, d)]);
      Has(s, 1, d) && s.workers[(1, d)].Done? && s.requests[1].prefix == x && d < s.requests[1].now
      && AnswerTable(s, 1, d) == cfg.compute(WithPrefix(cfg, [r], y))
      && RowsFor(cfg, s, x, d) == WithPrefix(cfg, [r], x)
  {
    FirstRequestCaches(cfg, d, r, y);
    HitAnswers(cfg, Run(cfg, Cold(d, r), FirstRequest(y, d)), x, d, cfg.compute(WithPrefix(cfg, [r], y)));
    RunTwo(cfg, Cold(d, r), FirstRequest(y, d), Begin(x, d), Check(1, d));
  }

  /** Both prefixes are asked for: "" first, then "*" is answered from its cache. */
  lemma WrongAfterRequest<Row(!new), V(!new)>(cfg: Config<Row, V>, sc: Scope, d: nat, r: Row)
    requires "" in sc.asked && "*" in sc.asked && !("*" <= cfg.key(r)) && d !in cfg.skip
    requires cfg.usable(|cfg.compute([r])|) && !Same(cfg, cfg.compute([r]), cfg.compute([]))
    ensures !Transparent(cfg, sc)
  {
    OneRow(cfg, r, "");
    OneRow(cfg, r, "*");
    FirstRequestCaches(cfg, d, r, "");
    AskingFails(cfg, sc, Cold(d, r), FirstRequest("", d), "*", d, cfg.compute([r]));
  }

  // ----- wait groups and padding, whatever is asked for -----

  ghost const EVERY := Scope((iset q: string | true), (iset q: string | true))

  /** In every run the wait group counts exactly the workers that have not finished, so it
      never goes negative and reaches zero exactly when all have. */
  lemma WaitGroupCounts<Row(!new), V(!new)>(
    cfg: Config<Row, V>, s0: State<Row, V>, run: seq<Action<Row>>, i: nat)
    requires Sound(cfg) && Init(cfg, EVERY, s0) && i < |Run(cfg, s0, run).requests|
    ensures var s := Run(cfg, s0, run);
      s.requests[i].wg == |Unfinished(s, i)|
      && (s.requests[i].wg == 0 <==>
            forall d: nat :: s.requests[i].first <= d <= s.requests[i].now ==>
              (i, d) in s.workers && s.workers[(i, d)].Done?)
  {
    RunKeeps(cfg, EVERY, s0, run);
    FinishedMeansDone(cfg, EVERY, Run(cfg, s0, run), i);
  }

  lemma FinishedMeansDone<Row(!new), V(!new)>(cfg: Config<Row, V>, sc: Scope, s: State<Row, V>, i: nat)
    requires i < |s.requests| && RequestOk(cfg, sc, s, i)
    ensures s.requests[i].wg == 0 <==>
              forall d: nat :: s.requests[i].first <= d <= s.requests[i].now ==>
                (i, d) in s.workers && s.workers[(i, d)].Done?
  {
    if s.requests[i].wg == 0 {
      forall d: nat | s.requests[i].first <= d <= s.requests[i].now
        ensures (i, d) in s.workers && s.workers[(i, d)].Done?
      {
        assert d !in Unfinished(s, i);
      }
    } else {
      var d :| d in Unfinished(s, i);
    }
  }

  /** When a request returns, all its days are answered and every day's table names every
      chain that any of its days says something about. */
  lemma ReturnedDaysShareChains<Row(!new), V(!new)>(
    cfg: Config<Row, V>, s0: State<Row, V>, run: seq<Action<Row>>, i: nat, d: nat, e: nat, c: string)
    requires Sound(cfg) && Init(cfg, EVERY, s0)
    requires var s := Run(cfg, s0, run);
      i < |s.requests| && s.requests[i].stage.Returned?
      && s.requests[i].first <= d <= s.requests[i].now && s.requests[i].first <= e <= s.requests[i].now
    ensures var s := Run(cfg, s0, run);
      (i, d) in s.workers && s.workers[(i, d)].Done?
      && (Entry(cfg, AnswerTable(s, i, d), c) != cfg.blank ==> c in AnswerTable(s, i, e))
  {
    RunKeeps(cfg, EVERY, s0, run);
    WaitGroupCounts(cfg, s0, run, i);
    assert RequestOk(cfg, EVERY, Run(cfg, s0, run), i);
  }

  /** The tables of a request that has collected its chains name no others. */
  ghost predicate NamesOnlySeen<Row(!new), V(!new)>(s: State<Row, V>, i: nat) {
    i < |s.requests| && !s.requests[i].stage.Running?
    && forall d: nat :: s.requests[i].first <= d <= s.requests[i].now ==>
         AnswerTable(s, i, d).Keys <= s.requests[i].stage.seen
  }

  /** A finished worker and its table. */
  ghost predicate SameAnswer<Row(!new), V(!new)>(s: State<Row, V>, s': State<Row, V>, w: Slot)
    requires w in s.workers && s.workers[w].Done? && s.workers[w].ref < |s.heap|
  {
    w in s'.workers && s'.workers[w] == s.workers[w] && s.workers[w].ref < |s'.heap|
    && s'.heap[s.workers[w].ref] == s.heap[s.workers[w].ref]
  }

  lemma WorkersKeepAnswers<Row(!new), V(!new)>(cfg: Config<Row, V>, s: State<Row, V>, w: Slot, a: Action<Row>)
    requires AllPrivate(s) && w in s.workers && s.workers[w].Done? && s.workers[w].ref < |s.heap|
    requires a.Check? || a.Fetch? || a.Store?
    ensures SameAnswer(s, Step(cfg, s, a), w)
  {
    if a.Fetch? && Has(s, a.i, a.d) && s.workers[(a.i, a.d)].Fetching? {
      assert Private(s, (a.i, a.d));
    }
  }

  lemma BeginKeepsAnswers<Row(!new), V(!new)>(cfg: Config<Row, V>, s: State<Row, V>, w: Slot, prefix: string, first: nat)
    requires w in s.workers && s.workers[w].Done? && s.workers[w].ref < |s.heap| && w.0 < |s.requests|
    ensures SameAnswer(s, Step(cfg, s, Begin(prefix, first)), w)
  {
    if first <= s.clock {
      assert Step(cfg, s, Begin(prefix, first)).workers == s.workers + NewWorkers(|s.requests|, first, s.clock);
    }
  }

  /** Who has finished stays finished, and only padding changes the answer's table. */
  lemma FinishedKept<Row(!new), V(!new)>(cfg: Config<Row, V>, s: State<Row, V>, w: Slot, a: Action<Row>)
    requires AllPrivate(s) && w in s.workers && s.workers[w].Done? && s.workers[w].ref < |s.heap|
    requires w.0 < |s.requests|
    ensures var s' := Step(cfg, s, a);
      w in s'.workers && s'.workers[w] == s.workers[w] && s.workers[w].ref < |s'.heap|
      && (!a.Pad? ==> s'.heap[s.workers[w].ref] == s.heap[s.workers[w].ref])
  {
    match a
    case Begin(prefix, first) => BeginKeepsAnswers(cfg, s, w, prefix, first);
    case Check(_, _) => WorkersKeepAnswers(cfg, s, w, a);
    case Fetch(_, _) => WorkersKeepAnswers(cfg, s, w, a);
    case Store(_, _) => WorkersKeepAnswers(cfg, s, w, a);
    case _ =>
  }

  /** A request that has collected its chains keeps its parameters and its chains. */
  ghost predicate SameRequest(r: Request, r': Request)
    requires !r.stage.Running?
  {
    r'.prefix == r.prefix && r'.first == r.first && r'.now == r.now
    && !r'.stage.Running? && r'.stage.seen == r.stage.seen && (r.stage.Returned? ==> r'.stage.Returned?)
  }

  lemma WorkersKeepRequests<Row(!new), V(!new)>(cfg: Config<Row, V>, s: State<Row, V>, i: nat, a: Action<Row>)
    requires i < |s.requests| && !s.requests[i].stage.Running? && (a.Check? || a.Fetch? || a.Store?)
    ensures i < |Step(cfg, s, a).requests| && SameRequest(s.requests[i], Step(cfg, s, a).requests[i])
  {
  }

  lemma RequestKept<Row(!new), V(!new)>(cfg: Config<Row, V>, s: State<Row, V>, i: nat, a: Action<Row>)
    requires i < |s.requests| && !s.requests[i].stage.Running?
    ensures i < |Step(cfg, s, a).requests| && SameRequest(s.requests[i], Step(cfg, s, a).requests[i])
  {
    if a.Check? || a.Fetch? || a.Store? { WorkersKeepRequests(cfg, s, i, a); }
  }

  /** The step adds a chain that the request has not collected to one of its tables. */
  ghost predicate Disturbs<Row(!new), V(!new)>(cfg: Config<Row, V>, s: State<Row, V>, a: Action<Row>, i: nat) {
    i < |s.requests| && !s.requests[i].stage.Running?
    && exists d: nat, c :: s.requests[i].first <= d <= s.requests[i].now && c !in s.requests[i].stage.seen
                           && c !in AnswerTable(s, i, d) && c in AnswerTable(Step(cfg, s, a), i, d)
  }

  /** A request that has collected its chains, and whose workers are done. */
  ghost predicate Collected<Row(!new), V(!new)>(s: State<Row, V>, i: nat) {
    AllPrivate(s) && i < |s.requests| && !s.requests[i].stage.Running?
    && forall d: nat :: s.requests[i].first <= d <= s.requests[i].now ==>
         (i, d) in s.workers && s.workers[(i, d)].Done? && s.workers[(i, d)].ref < |s.heap|
  }

  lemma IsCollected<Row(!new), V(!new)>(cfg: Config<Row, V>, s: State<Row, V>, i: nat)
    requires Inv(cfg, EVERY, s) && i < |s.requests| && !s.requests[i].stage.Running?
    ensures Collected(s, i)
  {
    assert RequestOk(cfg, EVERY, s, i);
    FinishedMeansDone(cfg, EVERY, s, i);
    forall d: nat | s.requests[i].first <= d <= s.requests[i].now ensures s.workers[(i, d)].ref < |s.heap| {
      assert WorkerOk(cfg, EVERY, s, (i, d), s.workers[(i, d)]);
    }
  }

  /** Tables only gain chains. */
  lemma ChainsStay<Row(!new), V(!new)>(cfg: Config<Row, V>, s: State<Row, V>, i: nat, d: nat, a: Action<Row>)
    requires Collected(s, i) && s.requests[i].first <= d <= s.requests[i].now
    ensures AnswerTable(s, i, d).Keys <= AnswerTable(Step(cfg, s, a), i, d).Keys
  {
    FinishedKept(cfg, s, (i, d), a);
  }

  lemma StepNamesOnlySeen<Row(!new), V(!new)>(cfg: Config<Row, V>, s: State<Row, V>, i: nat, a: Action<Row>)
    requires Collected(s, i) && NamesOnlySeen(s, i)
    ensures NamesOnlySeen(Step(cfg, s, a), i) <==> !Disturbs(cfg, s, a, i)
  {
    var s', r := Step(cfg, s, a), s.requests[i];
    RequestKept(cfg, s, i, a);
    if !Disturbs(cfg, s, a, i) {
      forall d: nat | r.first <= d <= r.now ensures AnswerTable(s', i, d).Keys <= r.stage.seen {
        assert AnswerTable(s, i, d).Keys <= r.stage.seen;
        assert forall c | c in AnswerTable(s', i, d) :: c in AnswerTable(s, i, d) || c in r.stage.seen;
      }
    }
  }

  lemma StaysDisturbed<Row(!new), V(!new)>(cfg: Config<Row, V>, s: State<Row, V>, i: nat, a: Action<Row>)
    requires Collected(s, i) && !NamesOnlySeen(s, i)
    ensures !NamesOnlySeen(Step(cfg, s, a), i)
  {
    RequestKept(cfg, s, i, a);
    var d: nat :| s.requests[i].first <= d <= s.requests[i].now && !(AnswerTable(s, i, d).Keys <= s.requests[i].stage.seen);
    ChainsStay(cfg, s, i, d, a);
  }

  /** No step of the run disturbs the request. */
  ghost predicate Undisturbed<Row(!new), V(!new)>(cfg: Config<Row, V>, s: State<Row, V>, i: nat, run: seq<Action<Row>>) {
    run == [] ||
    var n := |run| - 1;
    Undisturbed(cfg, s, i, run[..n]) && !Disturbs(cfg, Run(cfg, s, run[..n]), run[n], i)
  }

  lemma {:induction false} RunNamesOnlySeen<Row(!new), V(!new)>(
    cfg: Config<Row, V>, s: State<Row, V>, i: nat, run: seq<Action<Row>>)
    requires Sound(cfg) && Inv(cfg, EVERY, s) && NamesOnlySeen(s, i)
    ensures var s' := Run(cfg, s, run); Inv(cfg, EVERY, s') && Collected(s', i)
    ensures NamesOnlySeen(Run(cfg, s, run), i) <==> Undisturbed(cfg, s, i, run)
  {
    IsCollected(cfg, s, i);
    if run != [] {
      var n := |run| - 1;
      RunNamesOnlySeen(cfg, s, i, run[..n]);
      OneMoreStep(cfg, Run(cfg, s, run[..n]), i, run[n]);
    }
  }

  lemma OneMoreStep<Row(!new), V(!new)>(cfg: Config<Row, V>, s: State<Row, V>, i: nat, a: Action<Row>)
    requires Sound(cfg) && Inv(cfg, EVERY, s) && Collected(s, i)
    ensures Inv(cfg, EVERY, Step(cfg, s, a)) && Collected(Step(cfg, s, a), i)
    ensures NamesOnlySeen(Step(cfg, s, a), i) <==> NamesOnlySeen(s, i) && !Disturbs(cfg, s, a, i)
  {
    StepKeeps(cfg, EVERY, s, a);
    RequestKept(cfg, s, i, a);
    IsCollected(cfg, Step(cfg, s, a), i);
    if NamesOnlySeen(s, i) {
      StepNamesOnlySeen(cfg, s, i, a);
    } else {
      StaysDisturbed(cfg, s, i, a);
    }
  }

  /** A request returns days that all have exactly the chains it collected if and only if,
      from that moment on, nobody adds another chain to one of its tables. */
  lemma SameChainsIff<Row(!new), V(!new)>(
    cfg: Config<Row, V>, s0: State<Row, V>, before: seq<Action<Row>>, after: seq<Action<Row>>, i: nat)
    requires Sound(cfg) && Init(cfg, EVERY, s0)
    requires var s := Run(cfg, s0, before);
      i < |s.requests| && s.requests[i].stage.Running? && s.requests[i].wg == 0
    requires var s := Run(cfg, Step(cfg, Run(cfg, s0, before), Collect(i)), after);
      i < |s.requests| && s.requests[i].stage.Returned?
    ensures var collected := Step(cfg, Run(cfg, s0, before), Collect(i));
      AllSameChains(Run(cfg, collected, after), i) <==> Undisturbed(cfg, collected, i, after)
  {
    RunKeeps(cfg, EVERY, s0, before);
    var s := Run(cfg, s0, before);
    CollectedAll(cfg, s, i);
    StepKeeps(cfg, EVERY, s, Collect(i));
    RunNamesOnlySeen(cfg, Step(cfg, s, Collect(i)), i, after);
    ReturnedChains(cfg, Run(cfg, Step(cfg, s, Collect(i)), after), i);
  }

  ghost predicate AllSameChains<Row(!new), V(!new)>(s: State<Row, V>, i: nat)
    requires i < |s.requests| && s.requests[i].stage.Returned?
  {
    forall d: nat :: s.requests[i].first <= d <= s.requests[i].now ==>
      AnswerTable(s, i, d).Keys == s.requests[i].stage.seen
  }

  /** A returned request's days have at least the chains it collected. */
  lemma ReturnedChains<Row(!new), V(!new)>(cfg: Config<Row, V>, s: State<Row, V>, i: nat)
    requires Inv(cfg, EVERY, s) && i < |s.requests| && s.requests[i].stage.Returned?
    ensures AllSameChains(s, i) <==> NamesOnlySeen(s, i)
  {
    assert RequestOk(cfg, EVERY, s, i);
    if NamesOnlySeen(s, i) {
      forall d: nat | s.requests[i].first <= d <= s.requests[i].now
        ensures AnswerTable(s, i, d).Keys == s.requests[i].stage.seen
      {
        assert s.requests[i].stage.seen <= AnswerTable(s, i, d).Keys;
      }
    }
  }

  lemma CollectedAll<Row(!new), V(!new)>(cfg: Config<Row, V>, s: State<Row, V>, i: nat)
    requires Sound(cfg) && i < |s.requests| && s.requests[i].stage.Running? && s.requests[i].wg == 0
    ensures NamesOnlySeen(Step(cfg, s, Collect(i)), i)
  {
    var r := s.requests[i];
    var s' := Step(cfg, s, Collect(i));
    forall d: nat | r.first <= d <= r.now
      ensures AnswerTable(s', i, d).Keys <= SeenChains(cfg, s, i, r.first, r.now + 1)
    {
      SeenChainsHas(cfg, s, i, r.first, r.now + 1, d);
      assert AnswerTable(s', i, d) == AnswerTable(s, i, d);
    }
  }
}
