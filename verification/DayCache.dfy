/** The day-by-day aggregation service shared by the four aggregate endpoints, as a
    protocol over its locked sections.

    A request starts one worker per calendar day. A worker checks the warm cache under
    the lock, otherwise fetches and aggregates the day's rows and, for past days, stores
    the table in the cache under the lock. When the wait group reaches zero the request
    collects the chains seen on any day and adds the missing ones to every day's table.
    Tables are shared by reference between requests and the cache, so this padding writes
    through into the cache; the heap is explicit here for that reason.

    `V` is what a table holds per chain, and `blank` is what padding inserts.
 */
module DayCache {

  type Ref = nat
  type Slot = (nat, nat)    // request number, day

  datatype Config<!Row, !V> = Config(
    compute: seq<Row> -> map<string, V>,      // aggregates one day's rows
    start: map<string, V>,                    // table installed before the cache check
    blank: V,
    chains: map<string, V> -> set<string>,    // chains named by a table
    key: Row -> string,
    usable: nat -> bool,                      // cached table sizes that may be reused
    stale: nat -> bool,                       // cached table sizes that are overwritten
    skip: set<nat>)                           // days for which the cache is overridden

  datatype Worker<Row> =
    | Waiting
    | Fetching(ref: Ref)
    | Storing(ref: Ref, rows: seq<Row>)       // rows: the day as the worker's query found it
    | Done(ref: Ref, rows: seq<Row>)

  datatype Stage = Running | Padding(seen: set<string>) | Returned(seen: set<string>)

  datatype Request = Request(prefix: string, first: nat, now: nat, wg: int, stage: Stage)

  datatype State<Row, V> = State(
    clock: nat,
    db: map<nat, seq<Row>>,
    heap: seq<map<string, V>>,
    cache: map<string, map<nat, Ref>>,
    requests: seq<Request>,
    workers: map<Slot, Worker<Row>>)

  datatype Action<Row> =
    | Ingest(row: Row)                        // a row arrives, dated today
    | Tick                                    // midnight
    | Begin(prefix: string, first: nat)
    | Check(i: nat, d: nat)
    | Fetch(i: nat, d: nat)
    | Store(i: nat, d: nat)
    | Collect(i: nat)
    | Pad(i: nat, d: nat, chain: string)
    | Return(i: nat)

  function CachePrefix(prefix: string): string {
    if prefix == "" then "*" else prefix
  }

  /** The prefixes a process has to do with: `loaded` are those whose answers a cache loaded
      from storage may hold, `asked` those that requests ask for. */
  datatype Scope = Scope(loaded: iset<string>, asked: iset<string>)

  ghost predicate Known(sc: Scope, q: string) {
    q in sc.loaded || q in sc.asked
  }

  /** Answers for prefix `q` may be found in the cache under `p`. */
  ghost predicate Serves(sc: Scope, p: string, q: string) {
    CachePrefix(q) == p && Known(sc, q)
  }

  /** Nobody asks for one of "" and "*" where answers for the other may be cached. */
  ghost predicate Unmixed(sc: Scope) {
    !("" in sc.asked && Known(sc, "*")) && !("*" in sc.asked && Known(sc, ""))
  }

  /** Two query prefixes share a cache exactly when they are equal or are "" and "*". */
  lemma CachePrefixInjective(p: string, q: string)
    ensures CachePrefix(p) == CachePrefix(q) <==> p == q || {p, q} == {"", "*"}
  {
    assert "*" != "";
    if CachePrefix(p) == CachePrefix(q) && p != q {
      if p == "" { assert {p, q} == {"", "*"}; } else { assert {p, q} == {"", "*"}; }
    }
    if {p, q} == {"", "*"} {
      assert "" in {p, q} && "*" in {p, q};
    }
  }

  function RowsOn<Row, V>(s: State<Row, V>, d: nat): seq<Row> {
    if d in s.db then s.db[d] else []
  }

  function WithPrefix<Row, V>(cfg: Config<Row, V>, rows: seq<Row>, prefix: string): seq<Row> {
    if rows == [] then []
    else
      WithPrefix(cfg, rows[..|rows| - 1], prefix)
      + (if prefix <= cfg.key(rows[|rows| - 1]) then [rows[|rows| - 1]] else [])
  }

  /** The range query: the day's rows whose key starts with the prefix. */
  function RowsFor<Row, V>(cfg: Config<Row, V>, s: State<Row, V>, prefix: string, d: nat): seq<Row> {
    WithPrefix(cfg, RowsOn(s, d), prefix)
  }

  function TableAt<Row, V>(s: State<Row, V>, ref: Ref): map<string, V> {
    if ref < |s.heap| then s.heap[ref] else map[]
  }

  /** What a table says about a chain: a missing chain reads as blank. */
  function Entry<Row, V>(cfg: Config<Row, V>, t: map<string, V>, c: string): V {
    if c in t then t[c] else cfg.blank
  }

  ghost predicate Same<Row(!new), V(!new)>(cfg: Config<Row, V>, t: map<string, V>, u: map<string, V>) {
    forall c :: Entry(cfg, t, c) == Entry(cfg, u, c)
  }

  // ----- the steps -----

  predicate Has<Row, V>(s: State<Row, V>, i: nat, d: nat) {
    i < |s.requests| && (i, d) in s.workers
  }

  function Settle<Row, V>(s: State<Row, V>, i: nat, d: nat, w: Worker<Row>): State<Row, V>
    requires Has(s, i, d)
  {
    s.(workers := s.workers[(i, d) := w],
       requests := s.requests[i := s.requests[i].(wg := s.requests[i].wg - 1)])
  }

  predicate Hit<Row, V>(cfg: Config<Row, V>, s: State<Row, V>, i: nat, d: nat)
    requires Has(s, i, d)
  {
    var p := CachePrefix(s.requests[i].prefix);
    p in s.cache && d in s.cache[p] && cfg.usable(|TableAt(s, s.cache[p][d])|)
    && d !in cfg.skip && d < s.requests[i].now
  }

  /** The first locked section: install an empty table, then try the cache. */
  function CheckStep<Row, V>(cfg: Config<Row, V>, s: State<Row, V>, i: nat, d: nat): State<Row, V>
    requires Has(s, i, d)
  {
    var p := CachePrefix(s.requests[i].prefix);
    var s' := s.(heap := s.heap + [cfg.start]);
    if Hit(cfg, s, i, d) then
      Settle(s', i, d, Done(s.cache[p][d], []))
    else
      s'.(cache := if p in s.cache then s.cache else s.cache[p := map[]],
          workers := s.workers[(i, d) := Fetching(|s.heap|)])
  }

  /** Reads the day's rows and aggregates them into the worker's own table. */
  function FetchStep<Row, V>(cfg: Config<Row, V>, s: State<Row, V>, i: nat, d: nat): State<Row, V>
    requires Has(s, i, d) && s.workers[(i, d)].Fetching?
  {
    var ref := s.workers[(i, d)].ref;
    var rows := RowsFor(cfg, s, s.requests[i].prefix, d);
    var s' := s.(heap := if ref < |s.heap| then s.heap[ref := cfg.compute(rows)] else s.heap);
    if d < s.requests[i].now then s'.(workers := s.workers[(i, d) := Storing(ref, RowsOn(s, d))])
    else Settle(s', i, d, Done(ref, RowsOn(s, d)))
  }

  function Put(dates: map<nat, Ref>, d: nat, ref: Ref): map<nat, Ref> {
    dates[d := ref]
  }

  /** The second locked section, for past days only. */
  function StoreStep<Row, V>(cfg: Config<Row, V>, s: State<Row, V>, i: nat, d: nat): State<Row, V>
    requires Has(s, i, d) && s.workers[(i, d)].Storing?
  {
    var p := CachePrefix(s.requests[i].prefix);
    var w := s.workers[(i, d)];
    var s' := Settle(s, i, d, Done(w.ref, w.rows));
    if p in s.cache && (d !in s.cache[p] || cfg.stale(|TableAt(s, s.cache[p][d])|) || d in cfg.skip)
    then s'.(cache := s.cache[p := Put(s.cache[p], d, w.ref)])
    else s'
  }

  function AnswerTable<Row, V>(s: State<Row, V>, i: nat, d: nat): map<string, V> {
    if (i, d) in s.workers && s.workers[(i, d)].Done? then TableAt(s, s.workers[(i, d)].ref) else map[]
  }

  /** All chains named by the answers for days `lo` up to but excluding `hi`. */
  function SeenChains<Row, V>(cfg: Config<Row, V>, s: State<Row, V>, i: nat, lo: nat, hi: nat): set<string>
    decreases hi
  {
    if hi <= lo then {} else SeenChains(cfg, s, i, lo, hi - 1) + cfg.chains(AnswerTable(s, i, hi - 1))
  }

  predicate PadDone<Row, V>(s: State<Row, V>, i: nat)
    requires i < |s.requests| && s.requests[i].stage.Padding?
  {
    var r := s.requests[i];
    forall d: nat :: r.first <= d <= r.now ==> r.stage.seen <= AnswerTable(s, i, d).Keys
  }

  function SetStage<Row, V>(s: State<Row, V>, i: nat, stage: Stage): State<Row, V>
    requires i < |s.requests|
  {
    s.(requests := s.requests[i := s.requests[i].(stage := stage)])
  }

  /** One waiting worker for each day of a request. */
  function NewWorkers<Row>(i: nat, first: nat, now: nat): (m: map<Slot, Worker<Row>>)
    ensures forall w: Slot :: w in m <==> w.0 == i && first <= w.1 <= now
    ensures forall w <- m :: m[w] == Waiting
    decreases now
  {
    if now < first then map[]
    else if now == 0 then map[(i, 0) := Waiting]
    else NewWorkers(i, first, now - 1)[(i, now) := Waiting]
  }

  /** One step. An action that is not possible in the current state changes nothing. */
  function Step<Row, V>(cfg: Config<Row, V>, s: State<Row, V>, a: Action<Row>): State<Row, V> {
    match a
    case Ingest(row) => s.(db := s.db[s.clock := RowsOn(s, s.clock) + [row]])
    case Tick => s.(clock := s.clock + 1)
    case Begin(prefix, first) =>
      if first > s.clock then s
      else
        var i := |s.requests|;
        s.(requests := s.requests + [Request(prefix, first, s.clock, s.clock - first + 1, Running)],
           workers := s.workers + NewWorkers(i, first, s.clock))
    case Check(i, d) => if Has(s, i, d) && s.workers[(i, d)].Waiting? then CheckStep(cfg, s, i, d) else s
    case Fetch(i, d) => if Has(s, i, d) && s.workers[(i, d)].Fetching? then FetchStep(cfg, s, i, d) else s
    case Store(i, d) => if Has(s, i, d) && s.workers[(i, d)].Storing? then StoreStep(cfg, s, i, d) else s
    case Collect(i) =>
      if i < |s.requests| && s.requests[i].stage.Running? && s.requests[i].wg == 0 then
        SetStage(s, i, Padding(SeenChains(cfg, s, i, s.requests[i].first, s.requests[i].now + 1)))
      else s
    case Pad(i, d, chain) =>
      if Has(s, i, d) && s.requests[i].stage.Padding? && chain in s.requests[i].stage.seen
         && s.workers[(i, d)].Done? && s.workers[(i, d)].ref < |s.heap|
      then
        var ref := s.workers[(i, d)].ref;
        if chain in s.heap[ref] then s else s.(heap := s.heap[ref := s.heap[ref][chain := cfg.blank]])
      else s
    case Return(i) =>
      if i < |s.requests| && s.requests[i].stage.Padding? && PadDone(s, i)
      then SetStage(s, i, Returned(s.requests[i].stage.seen)) else s
  }

  /** All requests of the run ask for prefixes of the scope. */
  ghost predicate AsksWithin<Row>(run: seq<Action<Row>>, sc: Scope) {
    forall i :: 0 <= i < |run| && run[i].Begin? ==> run[i].prefix in sc.asked
  }

  function Run<Row, V>(cfg: Config<Row, V>, s: State<Row, V>, run: seq<Action<Row>>): State<Row, V> {
    if run == [] then s else Step(cfg, Run(cfg, s, run[..|run| - 1]), run[|run| - 1])
  }

  // ----- the invariant -----

  /** A table reads like a fresh aggregation of the day's rows under prefix `q`. */
  ghost predicate ReadsLike<Row(!new), V(!new)>(cfg: Config<Row, V>, s: State<Row, V>, ref: Ref, q: string, d: nat) {
    ref < |s.heap| && Same(cfg, s.heap[ref], cfg.compute(RowsFor(cfg, s, q, d)))
  }

  /** A table for day `d` of the cache under `p` is right for a prefix that has its answers
      there. */
  ghost predicate Right<Row(!new), V(!new)>(
    cfg: Config<Row, V>, sc: Scope, s: State<Row, V>, p: string, d: nat, ref: Ref)
  {
    exists q :: Serves(sc, p, q) && ReadsLike(cfg, s, ref, q, d)
  }

  ghost predicate CacheOk<Row(!new), V(!new)>(
    cfg: Config<Row, V>, sc: Scope, s: State<Row, V>, p: string, d: nat, ref: Ref)
  {
    ref < |s.heap| && d < s.clock && Right(cfg, sc, s, p, d, ref)
  }

  ghost predicate WorkerOk<Row(!new), V(!new)>(
    cfg: Config<Row, V>, sc: Scope, s: State<Row, V>, w: Slot, k: Worker<Row>)
  {
    w.0 < |s.requests| &&
    var r := s.requests[w.0];
    r.first <= w.1 <= r.now &&
    match k
    case Waiting => true
    case Fetching(ref) => ref < |s.heap| && CachePrefix(r.prefix) in s.cache
    case Storing(ref, rows) =>
      CachePrefix(r.prefix) in s.cache && w.1 < r.now && ReadsLike(cfg, s, ref, r.prefix, w.1)
    case Done(ref, rows) =>
      ref < |s.heap| &&
      if w.1 == r.now then Same(cfg, s.heap[ref], cfg.compute(WithPrefix(cfg, rows, r.prefix)))
      else
        Right(cfg, sc, s, CachePrefix(r.prefix), w.1, ref)
        && CachePrefix(r.prefix) in s.cache && w.1 in s.cache[CachePrefix(r.prefix)]
  }

  /** While a worker fills its table, nobody else refers to it. */
  ghost predicate Private<Row, V>(s: State<Row, V>, w: Slot)
    requires w in s.workers && s.workers[w].Fetching?
  {
    (forall x <- s.workers :: x != w && !s.workers[x].Waiting? ==> s.workers[x].ref != s.workers[w].ref)
    && forall p <- s.cache :: forall d <- s.cache[p] :: s.cache[p][d] != s.workers[w].ref
  }

  function Unfinished<Row, V>(s: State<Row, V>, i: nat): set<nat>
    requires i < |s.requests|
  {
    set d: nat | s.requests[i].first <= d <= s.requests[i].now
                 && ((i, d) in s.workers ==> !s.workers[(i, d)].Done?)
  }

  /** Every chain that some day's answer says something about. */
  ghost predicate Covers<Row(!new), V(!new)>(cfg: Config<Row, V>, s: State<Row, V>, i: nat, seen: set<string>)
    requires i < |s.requests|
  {
    forall d: nat, c | s.requests[i].first <= d <= s.requests[i].now ::
      Entry(cfg, AnswerTable(s, i, d), c) != cfg.blank ==> c in seen
  }

  ghost predicate RequestOk<Row(!new), V(!new)>(cfg: Config<Row, V>, sc: Scope, s: State<Row, V>, i: nat)
    requires i < |s.requests|
  {
    var r := s.requests[i];
    r.prefix in sc.asked && r.first <= r.now <= s.clock
    && (forall d: nat :: r.first <= d <= r.now ==> (i, d) in s.workers)
    && r.wg == |Unfinished(s, i)|
    && (!r.stage.Running? ==> r.wg == 0 && Covers(cfg, s, i, r.stage.seen))
    && (r.stage.Returned? ==>
          forall d: nat :: r.first <= d <= r.now ==> r.stage.seen <= AnswerTable(s, i, d).Keys)
  }

  ghost predicate CachesOk<Row(!new), V(!new)>(cfg: Config<Row, V>, sc: Scope, s: State<Row, V>) {
    forall p <- s.cache :: forall d <- s.cache[p] :: CacheOk(cfg, sc, s, p, d, s.cache[p][d])
  }

  ghost predicate WorkersOk<Row(!new), V(!new)>(cfg: Config<Row, V>, sc: Scope, s: State<Row, V>) {
    forall w <- s.workers :: WorkerOk(cfg, sc, s, w, s.workers[w])
  }

  ghost predicate AllPrivate<Row, V>(s: State<Row, V>) {
    forall w <- s.workers :: s.workers[w].Fetching? ==> Private(s, w)
  }

  ghost predicate RequestsOk<Row(!new), V(!new)>(cfg: Config<Row, V>, sc: Scope, s: State<Row, V>) {
    forall i :: 0 <= i < |s.requests| ==> RequestOk(cfg, sc, s, i)
  }

  ghost predicate Inv<Row(!new), V(!new)>(cfg: Config<Row, V>, sc: Scope, s: State<Row, V>) {
    CachesOk(cfg, sc, s) && WorkersOk(cfg, sc, s) && AllPrivate(s) && RequestsOk(cfg, sc, s)
  }

  /** What the configuration must provide: padding sees at least the table's own chains. */
  ghost predicate Sound<Row(!new), V(!new)>(cfg: Config<Row, V>) {
    forall t: map<string, V> :: t.Keys <= cfg.chains(t)
  }

  /** No request yet; the cache may have been loaded from storage, if it was right for the
      scope. */
  ghost predicate Init<Row(!new), V(!new)>(cfg: Config<Row, V>, sc: Scope, s: State<Row, V>) {
    s.requests == [] && s.workers == map[] && CachesOk(cfg, sc, s)
  }
}
