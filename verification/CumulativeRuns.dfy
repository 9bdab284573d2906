/** Running totals over whole runs: cumulative calls, interleaved with each other, with the
    daily requests they start from, with arriving rows and with midnights.

    A call reads the clock, waits for a daily request over all days since the release, which
    reads the clock once more, and then goes through the dates. For each date it looks into
    the running-total cache under the lock; if the date is not there, it computes the total
    and stores it under the lock. */
module CumulativeRuns {
  import opened Options
  import opened Transfers
  import opened DayCache
  import opened DayCacheProofs
  import opened Transparency
  import opened Queried

  /** What the cumulative endpoints differ in. */
  datatype Service<!V> = Service(
    cfg: Config<Row, V>,                                          // the daily service
    look: (map<string, V>, string, string) -> real,               // what a table says in a cell
    cell: (string, string) -> Query,                              // what the cell is to hold
    move: (map<string, V>, map<string, V>) -> map<string, V>,     // a total moved on by a day
    copy: map<string, V> -> map<string, V>,                       // a table taken over
    again: bool,                                                  // overridden days are stored again
    release: nat)                                                 // the first day of all

  /** Every cell is the total of the rows. */
  ghost predicate Totals<V(!new)>(v: Service<V>, t: map<string, V>, rows: seq<Row>) {
    forall c, x :: v.look(t, c, x) == Total(v.cell(c, x), rows)
  }

  // What is needed of a service: its day tables and its steps from day to day mean what they
  // should, and padding goes by the chains of the tables.

  ghost predicate TablesMean<V(!new)>(v: Service<V>, t: map<string, V>, rows: seq<Row>) {
    Same(v.cfg, t, v.cfg.compute(rows)) ==> Totals(v, t, rows)
  }

  ghost predicate BlankMeansZero<V(!new)>(v: Service<V>, t: map<string, V>, c: string, x: string) {
    Entry(v.cfg, t, c) == v.cfg.blank ==> v.look(t, c, x) == 0.0
  }

  ghost predicate MoveAdds<V(!new)>(v: Service<V>, prev: map<string, V>, day: map<string, V>, c: string, x: string) {
    v.look(v.move(prev, day), c, x) == if c in day then v.look(prev, c, x) + v.look(day, c, x) else 0.0
  }

  ghost predicate CopyKeeps<V(!new)>(v: Service<V>, t: map<string, V>, c: string, x: string) {
    v.look(v.copy(t), c, x) == v.look(t, c, x)
  }

  ghost predicate PadsByKeys<V(!new)>(v: Service<V>, t: map<string, V>) {
    v.cfg.chains(t) == t.Keys
  }

  ghost predicate Lawful<V(!new)>(v: Service<V>) {
    (forall t: map<string, V>, rows :: TablesMean(v, t, rows))
    && (forall t: map<string, V>, c, x :: BlankMeansZero(v, t, c, x))
    && (forall prev: map<string, V>, day: map<string, V>, c, x :: MoveAdds(v, prev, day, c, x))
    && (forall t: map<string, V>, c, x :: CopyKeeps(v, t, c, x))
    && (forall t: map<string, V> :: PadsByKeys(v, t))
    && (forall r: Row :: v.cfg.key(r) == r.key)
  }

  lemma LawfulIsSound<V(!new)>(v: Service<V>)
    requires Lawful(v)
    ensures Sound(v.cfg)
  {
    forall t: map<string, V> ensures t.Keys <= v.cfg.chains(t) {
      assert PadsByKeys(v, t);
    }
  }

  // ----- the steps -----

  /** A call: the clock as it read it, the number of requests at that moment, the daily
      request it has taken, and its loop over the dates. `next` is the date it is at, and
      `pending` that the date's total is computed and not yet stored. */
  datatype Call<V> = Call(
    today: nat, since: nat, request: Option<nat>, results: map<nat, map<string, V>>, next: nat, pending: bool)

  datatype World<V> = World(
    days: State<Row, V>, totals: map<string, map<nat, map<string, V>>>, calls: seq<Call<V>>)

  datatype Event =
    | Base(a: Action<Row>)          // a step of the daily service, a new row or a midnight
    | Read                          // a call begins and reads the clock
    | Take(j: nat, i: nat)          // it goes on with a daily request made since
    | CheckDate(j: nat)
    | SaveDate(j: nat)

  predicate Takes<V>(v: Service<V>, w: World<V>, j: nat, i: nat) {
    j < |w.calls| && w.calls[j].request.None? && w.calls[j].since <= i < |w.days.requests|
    && w.days.requests[i].stage.Returned? && w.days.requests[i].first == v.release
  }

  predicate Ongoing<V>(w: World<V>, j: nat) {
    j < |w.calls| && w.calls[j].request.Some? && w.calls[j].request.value < |w.days.requests|
  }

  function RequestOf<V>(w: World<V>, j: nat): Request
    requires Ongoing(w, j)
  {
    w.days.requests[w.calls[j].request.value]
  }

  function PrefixOf<V>(w: World<V>, j: nat): string
    requires Ongoing(w, j)
  {
    CachePrefix(RequestOf(w, j).prefix)
  }

  /** The total of the date a call is at, when it is not cached. */
  function NextTotal<V>(v: Service<V>, w: World<V>, j: nat): map<string, V>
    requires Ongoing(w, j)
  {
    var call := w.calls[j];
    var day := AnswerTable(w.days, call.request.value, call.next);
    if call.next == v.release then v.copy(day)
    else
      var before := call.next - 1;
      v.move(if before in call.results then call.results[before] else map[], day)
  }

  function Checked<V>(v: Service<V>, w: World<V>, j: nat): Call<V>
    requires Ongoing(w, j)
  {
    var call, p := w.calls[j], PrefixOf(w, j);
    if p in w.totals && call.next in w.totals[p] && call.next !in v.cfg.skip
    then call.(results := call.results[call.next := v.copy(w.totals[p][call.next])], next := call.next + 1)
    else call.(results := call.results[call.next := NextTotal(v, w, j)], pending := true)
  }

  predicate Stores<V>(v: Service<V>, dates: map<nat, map<string, V>>, d: nat) {
    d !in dates || (v.again && d in v.cfg.skip)
  }

  function Saved<V>(v: Service<V>, w: World<V>, j: nat): map<string, map<nat, map<string, V>>>
    requires Ongoing(w, j)
  {
    var call, p := w.calls[j], PrefixOf(w, j);
    if call.next != call.today && p in w.totals && call.next in call.results && Stores(v, w.totals[p], call.next)
    then w.totals[p := Entered(w.totals[p], call.next, call.results[call.next])]
    else w.totals
  }

  function Entered<V>(dates: map<nat, map<string, V>>, d: nat, t: map<string, V>): map<nat, map<string, V>> {
    dates[d := t]
  }

  function Taken<V>(v: Service<V>, w: World<V>, j: nat, i: nat): World<V>
    requires Takes(v, w, j, i)
  {
    var p := CachePrefix(w.days.requests[i].prefix);
    w.(totals := if p in w.totals then w.totals else w.totals[p := map[]],
       calls := w.calls[j := w.calls[j].(request := Some(i))])
  }

  function Next<V>(v: Service<V>, w: World<V>, e: Event): World<V> {
    match e
    case Base(a) => w.(days := Step(v.cfg, w.days, a))
    case Read => w.(calls := w.calls + [Call(w.days.clock, |w.days.requests|, None, map[], v.release, false)])
    case Take(j, i) => if Takes(v, w, j, i) then Taken(v, w, j, i) else w
    case CheckDate(j) =>
      if Ongoing(w, j) && !w.calls[j].pending && w.calls[j].next <= RequestOf(w, j).now
      then w.(calls := w.calls[j := Checked(v, w, j)]) else w
    case SaveDate(j) =>
      if Ongoing(w, j) && w.calls[j].pending
      then w.(totals := Saved(v, w, j),
              calls := w.calls[j := w.calls[j].(pending := false, next := w.calls[j].next + 1)])
      else w
  }

  function After<V>(v: Service<V>, w: World<V>, run: seq<Event>): World<V> {
    if run == [] then w else Next(v, After(v, w, run[..|run| - 1]), run[|run| - 1])
  }

  // ----- midnights -----

  /** No midnight has fallen between the call's reading of the clock and that of the daily
      request it takes. */
  ghost predicate Calm<V>(v: Service<V>, w: World<V>, e: Event) {
    e.Take? && Takes(v, w, e.j, e.i) ==> w.calls[e.j].today == w.days.requests[e.i].now
  }

  ghost predicate CalmRun<V>(v: Service<V>, w: World<V>, run: seq<Event>) {
    forall k :: 0 <= k < |run| ==> Calm(v, After(v, w, run[..k]), run[k])
  }

  function Midnights(run: seq<Event>): nat {
    if run == [] then 0
    else Midnights(run[..|run| - 1]) + (if run[|run| - 1] == Base(Tick) then 1 else 0)
  }

  /** The clock counts midnights: two readings agree exactly when none lies between them. */
  lemma {:induction false} ClockCounts<V(!new)>(v: Service<V>, w: World<V>, run: seq<Event>)
    ensures After(v, w, run).days.clock == w.days.clock + Midnights(run)
    ensures After(v, w, run).days.clock == w.days.clock <==> forall k :: 0 <= k < |run| ==> run[k] != Base(Tick)
  {
    if run != [] {
      var n := |run| - 1;
      ClockCounts(v, w, run[..n]);
      ClockStep(v, After(v, w, run[..n]), run[n]);
      assert forall k :: 0 <= k < n ==> run[..n][k] == run[k];
    }
  }

  lemma ClockStep<V(!new)>(v: Service<V>, w: World<V>, e: Event)
    ensures Next(v, w, e).days.clock == w.days.clock + (if e == Base(Tick) then 1 else 0)
  {
  }

  // ----- what totals are meant to hold -----

  /** All rows under prefix `q` from the release up to but excluding day `hi`. */
  function RowsUpTo<V>(v: Service<V>, s: State<Row, V>, q: string, hi: nat): seq<Row> {
    if hi <= v.release then [] else RowsUpTo(v, s, q, hi - 1) + RowsFor(v.cfg, s, q, hi - 1)
  }

  /** What a request's answer for one day must account for. */
  function DueOn<V>(v: Service<V>, s: State<Row, V>, i: nat, d: nat): seq<Row> {
    if Has(s, i, d) && s.workers[(i, d)].Done? then Due(v.cfg, s, i, d, s.requests[i].prefix) else []
  }

  /** What its answers for the days before `hi` must account for. */
  function DueUpTo<V>(v: Service<V>, s: State<Row, V>, i: nat, hi: nat): seq<Row> {
    if hi <= v.release then [] else DueUpTo(v, s, i, hi - 1) + DueOn(v, s, i, hi - 1)
  }

  ghost predicate TotalRight<V(!new)>(v: Service<V>, s: State<Row, V>, q: string, d: nat, t: map<string, V>) {
    Totals(v, t, RowsUpTo(v, s, q, d + 1))
  }

  /** A cached total is one of a past day and right for a prefix that has its answers there. */
  ghost predicate TotalOk<V(!new)>(
    v: Service<V>, sc: Scope, s: State<Row, V>, p: string, d: nat, t: map<string, V>)
  {
    d < s.clock && exists q :: Serves(sc, p, q) && TotalRight(v, s, q, d, t)
  }

  ghost predicate AllTotalsOk<V(!new)>(v: Service<V>, sc: Scope, w: World<V>) {
    forall p <- w.totals :: forall d <- w.totals[p] :: TotalOk(v, sc, w.days, p, d, w.totals[p][d])
  }

  /** A result accounts for what the request's answers do or, for a day that is past by now,
      for all its rows: another call may have stored the day's total in the meantime. */
  ghost predicate ResultOk<V(!new)>(v: Service<V>, s: State<Row, V>, i: nat, d: nat, t: map<string, V>)
    requires i < |s.requests|
  {
    Totals(v, t, DueUpTo(v, s, i, d + 1))
    || (d < s.clock && Totals(v, t, RowsUpTo(v, s, s.requests[i].prefix, d + 1)))
  }

  ghost predicate ResultsOk<V(!new)>(v: Service<V>, s: State<Row, V>, call: Call<V>) {
    forall d <- call.results ::
      call.request.Some? && call.request.value < |s.requests|
      && ResultOk(v, s, call.request.value, d, call.results[d])
  }

  ghost predicate AllResultsOk<V(!new)>(v: Service<V>, w: World<V>) {
    forall j :: 0 <= j < |w.calls| ==> ResultsOk(v, w.days, w.calls[j])
  }

  // ----- the invariant -----

  /** Where a call is in its loop. */
  ghost predicate LoopOk<V(!new)>(v: Service<V>, w: World<V>, call: Call<V>) {
    if call.request.None? then call.results == map[] && call.next == v.release && !call.pending
    else
      call.request.value < |w.days.requests| &&
      var r := w.days.requests[call.request.value];
      r.stage.Returned? && r.first == v.release && call.today == r.now && CachePrefix(r.prefix) in w.totals
      && v.release <= call.next <= r.now + 1 && (call.pending ==> call.next <= r.now)
      && forall d: nat :: d in call.results <==> v.release <= d < call.next || (call.pending && d == call.next)
  }

  ghost predicate AllLoopsOk<V(!new)>(v: Service<V>, w: World<V>) {
    forall j :: 0 <= j < |w.calls| ==> LoopOk(v, w, w.calls[j])
  }

  ghost predicate WorldOk<V(!new)>(v: Service<V>, sc: Scope, w: World<V>) {
    Inv(v.cfg, sc, w.days) && AllTotalsOk(v, sc, w) && AllLoopsOk(v, w) && AllResultsOk(v, w)
  }

  // ----- the days stay as they are -----

  lemma PastRowsKept<V(!new)>(v: Service<V>, s: State<Row, V>, a: Action<Row>, d: nat)
    requires d < s.clock
    ensures RowsOn(Step(v.cfg, s, a), d) == RowsOn(s, d) && s.clock <= Step(v.cfg, s, a).clock
  {
  }

  lemma {:induction false} RowsUpToAgree<V(!new)>(v: Service<V>, s: State<Row, V>, s': State<Row, V>, q: string, hi: nat)
    requires forall d: nat | d < hi :: RowsOn(s', d) == RowsOn(s, d)
    ensures RowsUpTo(v, s', q, hi) == RowsUpTo(v, s, q, hi)
  {
    if hi > v.release {
      RowsUpToAgree(v, s, s', q, hi - 1);
      assert RowsOn(s', hi - 1) == RowsOn(s, hi - 1);
    }
  }

  lemma RowsUpToKept<V(!new)>(v: Service<V>, s: State<Row, V>, a: Action<Row>, q: string, hi: nat)
    requires hi <= s.clock
    ensures RowsUpTo(v, Step(v.cfg, s, a), q, hi) == RowsUpTo(v, s, q, hi)
  {
    forall d: nat | d < hi ensures RowsOn(Step(v.cfg, s, a), d) == RowsOn(s, d) {
      PastRowsKept(v, s, a, d);
    }
    RowsUpToAgree(v, s, Step(v.cfg, s, a), q, hi);
  }

  /** What a returned request offers: all its days are answered and right, and a chain that
      one of them does not name has nothing on any. */
  ghost predicate Settled<V(!new)>(v: Service<V>, s: State<Row, V>, i: nat) {
    i < |s.requests| &&
    var r := s.requests[i];
    r.stage.Returned? && r.first == v.release <= r.now <= s.clock
    && (forall d: nat | v.release <= d <= r.now :: DayDone(s, i, d))
    && (forall d: nat | v.release <= d <= r.now :: DayRight(v, s, i, d))
    && (forall d: nat, e: nat | v.release <= d <= r.now && v.release <= e <= r.now :: DayNames(v, s, i, d, e))
  }

  ghost predicate DayDone<V(!new)>(s: State<Row, V>, i: nat, d: nat) {
    (i, d) in s.workers && s.workers[(i, d)].Done? && s.workers[(i, d)].ref < |s.heap|
  }

  ghost predicate DayRight<V(!new)>(v: Service<V>, s: State<Row, V>, i: nat, d: nat) {
    Totals(v, AnswerTable(s, i, d), DueOn(v, s, i, d))
  }

  ghost predicate DayNames<V(!new)>(v: Service<V>, s: State<Row, V>, i: nat, d: nat, e: nat) {
    forall c, x | c !in AnswerTable(s, i, d) :: v.look(AnswerTable(s, i, e), c, x) == 0.0
  }

  lemma ReturnedIsSettled<V(!new)>(v: Service<V>, sc: Scope, s: State<Row, V>, i: nat)
    requires Lawful(v) && Inv(v.cfg, sc, s) && Unmixed(sc)
    requires i < |s.requests| && s.requests[i].stage.Returned? && s.requests[i].first == v.release
    ensures Settled(v, s, i)
  {
    var r := s.requests[i];
    assert RequestOk(v.cfg, sc, s, i);
    FinishedMeansDone(v.cfg, sc, s, i);
    forall d: nat | v.release <= d <= r.now ensures DayDone(s, i, d) && DayRight(v, s, i, d) {
      assert WorkerOk(v.cfg, sc, s, (i, d), s.workers[(i, d)]);
      DoneMeansRight(v.cfg, sc, s, i, d);
      assert TablesMean(v, AnswerTable(s, i, d), DueOn(v, s, i, d));
    }
    forall d: nat, e: nat | v.release <= d <= r.now && v.release <= e <= r.now ensures DayNames(v, s, i, d, e) {
      forall c, x | c !in AnswerTable(s, i, d) ensures v.look(AnswerTable(s, i, e), c, x) == 0.0 {
        assert BlankMeansZero(v, AnswerTable(s, i, e), c, x);
      }
    }
  }

  lemma DueOnKept<V(!new)>(v: Service<V>, s: State<Row, V>, a: Action<Row>, i: nat, d: nat)
    requires Settled(v, s, i) && AllPrivate(s) && v.release <= d <= s.requests[i].now
    ensures DueOn(v, Step(v.cfg, s, a), i, d) == DueOn(v, s, i, d)
  {
    assert DayDone(s, i, d);
    FinishedKept(v.cfg, s, (i, d), a);
    RequestKept(v.cfg, s, i, a);
    if d < s.requests[i].now { PastRowsKept(v, s, a, d); }
  }

  lemma {:induction false} DueUpToAgree<V(!new)>(v: Service<V>, s: State<Row, V>, s': State<Row, V>, i: nat, hi: nat)
    requires forall d: nat | v.release <= d < hi :: DueOn(v, s', i, d) == DueOn(v, s, i, d)
    ensures DueUpTo(v, s', i, hi) == DueUpTo(v, s, i, hi)
  {
    if hi > v.release {
      DueUpToAgree(v, s, s', i, hi - 1);
      assert DueOn(v, s', i, hi - 1) == DueOn(v, s, i, hi - 1);
    }
  }

  lemma DueUpToKept<V(!new)>(v: Service<V>, s: State<Row, V>, a: Action<Row>, i: nat, hi: nat)
    requires Settled(v, s, i) && AllPrivate(s) && hi <= s.requests[i].now + 1
    ensures DueUpTo(v, Step(v.cfg, s, a), i, hi) == DueUpTo(v, s, i, hi)
  {
    forall d: nat | v.release <= d < hi ensures DueOn(v, Step(v.cfg, s, a), i, d) == DueOn(v, s, i, d) {
      DueOnKept(v, s, a, i, d);
    }
    DueUpToAgree(v, s, Step(v.cfg, s, a), i, hi);
  }

  /** For past days, what is due is what the database holds. */
  lemma {:induction false} DueIsRows<V(!new)>(v: Service<V>, s: State<Row, V>, i: nat, hi: nat)
    requires Settled(v, s, i) && hi <= s.requests[i].now
    ensures DueUpTo(v, s, i, hi) == RowsUpTo(v, s, s.requests[i].prefix, hi)
  {
    if hi > v.release {
      DueIsRows(v, s, i, hi - 1);
      assert DayDone(s, i, hi - 1);
    }
  }

  // ----- one date -----

  lemma {:induction false} UnnamedTotalsZero<V(!new)>(
    v: Service<V>, s: State<Row, V>, i: nat, d: nat, hi: nat, c: string, x: string)
    requires Settled(v, s, i) && v.release <= d <= s.requests[i].now && hi <= s.requests[i].now + 1
    requires c !in AnswerTable(s, i, d)
    ensures Total(v.cell(c, x), DueUpTo(v, s, i, hi)) == 0.0
  {
    if hi > v.release {
      UnnamedTotalsZero(v, s, i, d, hi - 1, c, x);
      assert DayNames(v, s, i, d, hi - 1) && DayRight(v, s, i, hi - 1);
      assert v.look(AnswerTable(s, i, hi - 1), c, x) == Total(v.cell(c, x), DueOn(v, s, i, hi - 1));
      TotalAppend(v.cell(c, x), DueUpTo(v, s, i, hi - 1), DueOn(v, s, i, hi - 1));
    }
  }

  /** The previous total moved on by the day. */
  lemma MovedOnRight<V(!new)>(v: Service<V>, s: State<Row, V>, i: nat, d: nat, prev: map<string, V>)
    requires Lawful(v) && Settled(v, s, i) && v.release < d <= s.requests[i].now
    requires Totals(v, prev, DueUpTo(v, s, i, d))
    ensures Totals(v, v.move(prev, AnswerTable(s, i, d)), DueUpTo(v, s, i, d + 1))
  {
    var day, due := AnswerTable(s, i, d), DueOn(v, s, i, d);
    assert DayRight(v, s, i, d) && DayNames(v, s, i, d, d);
    forall c, x ensures v.look(v.move(prev, day), c, x) == Total(v.cell(c, x), DueUpTo(v, s, i, d + 1)) {
      assert MoveAdds(v, prev, day, c, x);
      TotalAppend(v.cell(c, x), DueUpTo(v, s, i, d), due);
      assert v.look(day, c, x) == Total(v.cell(c, x), due);
      assert v.look(prev, c, x) == Total(v.cell(c, x), DueUpTo(v, s, i, d));
      if c !in day {
        UnnamedTotalsZero(v, s, i, d, d, c, x);
      }
    }
  }

  lemma CopyTotals<V(!new)>(v: Service<V>, t: map<string, V>, rows: seq<Row>)
    requires Lawful(v) && Totals(v, t, rows)
    ensures Totals(v, v.copy(t), rows)
  {
    forall c, x ensures v.look(v.copy(t), c, x) == Total(v.cell(c, x), rows) {
      assert CopyKeeps(v, t, c, x);
    }
  }

  lemma FirstTotalRight<V(!new)>(v: Service<V>, s: State<Row, V>, i: nat)
    requires Lawful(v) && Settled(v, s, i)
    ensures ResultOk(v, s, i, v.release, v.copy(AnswerTable(s, i, v.release)))
  {
    var d := v.release;
    assert DayRight(v, s, i, d);
    CopyTotals(v, AnswerTable(s, i, d), DueOn(v, s, i, d));
    assert DueUpTo(v, s, i, d) == [] && DueUpTo(v, s, i, d + 1) == [] + DueOn(v, s, i, d) == DueOn(v, s, i, d);
  }

  lemma LaterTotalRight<V(!new)>(v: Service<V>, s: State<Row, V>, i: nat, d: nat, prev: map<string, V>)
    requires Lawful(v) && Settled(v, s, i) && v.release < d <= s.requests[i].now && ResultOk(v, s, i, d - 1, prev)
    ensures ResultOk(v, s, i, d, v.move(prev, AnswerTable(s, i, d)))
  {
    DueIsRows(v, s, i, d);
    assert Totals(v, prev, DueUpTo(v, s, i, d));
    MovedOnRight(v, s, i, d, prev);
  }

  /** The date's total, computed from the previous one. */
  lemma NextTotalRight<V(!new)>(v: Service<V>, w: World<V>, j: nat)
    requires Lawful(v) && Ongoing(w, j) && Settled(v, w.days, w.calls[j].request.value)
    requires v.release <= w.calls[j].next <= RequestOf(w, j).now
    requires var call := w.calls[j];
      call.next > v.release ==>
        call.next - 1 in call.results && ResultOk(v, w.days, call.request.value, call.next - 1, call.results[call.next - 1])
    ensures ResultOk(v, w.days, w.calls[j].request.value, w.calls[j].next, NextTotal(v, w, j))
  {
    var call, t := w.calls[j], NextTotal(v, w, j);
    var i := call.request.value;
    if call.next == v.release {
      assert t == v.copy(AnswerTable(w.days, i, v.release));
      FirstTotalRight(v, w.days, i);
    } else {
      var prev := call.results[call.next - 1];
      assert t == v.move(prev, AnswerTable(w.days, i, call.next));
      LaterTotalRight(v, w.days, i, call.next, prev);
    }
  }

  /** What the cache holds for the date is right for the call. */
  lemma HitTotalRight<V(!new)>(v: Service<V>, sc: Scope, s: State<Row, V>, i: nat, d: nat, t: map<string, V>)
    requires Lawful(v) && Unmixed(sc) && i < |s.requests| && s.requests[i].prefix in sc.asked
    requires TotalOk(v, sc, s, CachePrefix(s.requests[i].prefix), d, t)
    ensures ResultOk(v, s, i, d, v.copy(t))
  {
    var p := CachePrefix(s.requests[i].prefix);
    var q :| Serves(sc, p, q) && TotalRight(v, s, q, d, t);
    ServedBySelf(sc, s.requests[i].prefix, q);
    CopyTotals(v, t, RowsUpTo(v, s, q, d + 1));
  }

  // ----- every step keeps the invariant -----

  lemma ResultAgrees<V(!new)>(v: Service<V>, s: State<Row, V>, s': State<Row, V>, i: nat, d: nat, t: map<string, V>)
    requires i < |s.requests| && i < |s'.requests| && s'.requests[i].prefix == s.requests[i].prefix
    requires ResultOk(v, s, i, d, t) && DueUpTo(v, s', i, d + 1) == DueUpTo(v, s, i, d + 1)
    requires d < s.clock ==>
               d < s'.clock && RowsUpTo(v, s', s.requests[i].prefix, d + 1) == RowsUpTo(v, s, s.requests[i].prefix, d + 1)
    ensures ResultOk(v, s', i, d, t)
  {
  }

  /** What was due for a day, and what the database holds for it, stays. */
  lemma AccountKept<V(!new)>(v: Service<V>, s: State<Row, V>, a: Action<Row>, i: nat, d: nat)
    requires Settled(v, s, i) && AllPrivate(s) && d <= s.requests[i].now
    ensures var s' := Step(v.cfg, s, a);
      i < |s'.requests| && s'.requests[i].prefix == s.requests[i].prefix
      && DueUpTo(v, s', i, d + 1) == DueUpTo(v, s, i, d + 1)
    ensures var s' := Step(v.cfg, s, a);
      d < s.clock ==>
        d < s'.clock && RowsUpTo(v, s', s.requests[i].prefix, d + 1) == RowsUpTo(v, s, s.requests[i].prefix, d + 1)
  {
    RequestKept(v.cfg, s, i, a);
    DueUpToKept(v, s, a, i, d + 1);
    if d < s.clock {
      RowsUpToKept(v, s, a, s.requests[i].prefix, d + 1);
      PastRowsKept(v, s, a, d);
    }
  }

  lemma ResultsKept<V(!new)>(v: Service<V>, sc: Scope, w: World<V>, a: Action<Row>, call: Call<V>)
    requires Lawful(v) && Inv(v.cfg, sc, w.days) && Unmixed(sc) && LoopOk(v, w, call) && ResultsOk(v, w.days, call)
    ensures ResultsOk(v, Step(v.cfg, w.days, a), call)
  {
    if call.request.Some? {
      var s, s', i := w.days, Step(v.cfg, w.days, a), call.request.value;
      ReturnedIsSettled(v, sc, s, i);
      forall d <- call.results ensures i < |s'.requests| && ResultOk(v, s', i, d, call.results[d]) {
        AccountKept(v, s, a, i, d);
        ResultAgrees(v, s, s', i, d, call.results[d]);
      }
    }
  }

  lemma LoopKept<V(!new)>(v: Service<V>, w: World<V>, a: Action<Row>, call: Call<V>)
    requires LoopOk(v, w, call)
    ensures LoopOk(v, w.(days := Step(v.cfg, w.days, a)), call)
  {
    if call.request.Some? { RequestKept(v.cfg, w.days, call.request.value, a); }
  }

  lemma TotalKept<V(!new)>(v: Service<V>, sc: Scope, s: State<Row, V>, a: Action<Row>, p: string, d: nat, t: map<string, V>)
    requires TotalOk(v, sc, s, p, d, t)
    ensures TotalOk(v, sc, Step(v.cfg, s, a), p, d, t)
  {
    var q :| Serves(sc, p, q) && TotalRight(v, s, q, d, t);
    RowsUpToKept(v, s, a, q, d + 1);
    PastRowsKept(v, s, a, d);
    assert TotalRight(v, Step(v.cfg, s, a), q, d, t);
  }

  lemma BaseKeeps<V(!new)>(v: Service<V>, sc: Scope, w: World<V>, a: Action<Row>)
    requires Lawful(v) && WorldOk(v, sc, w) && Unmixed(sc) && (a.Begin? ==> a.prefix in sc.asked)
    ensures WorldOk(v, sc, Next(v, w, Base(a)))
  {
    var w' := Next(v, w, Base(a));
    LawfulIsSound(v);
    StepKeeps(v.cfg, sc, w.days, a);
    forall p <- w.totals, d <- w.totals[p] ensures TotalOk(v, sc, w'.days, p, d, w.totals[p][d]) {
      TotalKept(v, sc, w.days, a, p, d, w.totals[p][d]);
    }
    forall j | 0 <= j < |w.calls| ensures LoopOk(v, w', w.calls[j]) && ResultsOk(v, w'.days, w.calls[j]) {
      LoopKept(v, w, a, w.calls[j]);
      ResultsKept(v, sc, w, a, w.calls[j]);
    }
  }

  /** One call changed, and the totals at most grown. */
  lemma CallReplaced<V(!new)>(v: Service<V>, w: World<V>, w': World<V>, j: nat, call: Call<V>)
    requires AllLoopsOk(v, w) && AllResultsOk(v, w) && j < |w.calls|
    requires w'.days == w.days && w.totals.Keys <= w'.totals.Keys && w'.calls == w.calls[j := call]
    requires LoopOk(v, w', call) && ResultsOk(v, w.days, call)
    ensures AllLoopsOk(v, w') && AllResultsOk(v, w')
  {
    forall k | 0 <= k < |w'.calls| ensures LoopOk(v, w', w'.calls[k]) && ResultsOk(v, w'.days, w'.calls[k]) {
      if k != j { assert LoopOk(v, w, w.calls[k]) && ResultsOk(v, w.days, w.calls[k]); }
    }
  }

  lemma TakeKeeps<V(!new)>(v: Service<V>, sc: Scope, w: World<V>, j: nat, i: nat)
    requires WorldOk(v, sc, w) && Takes(v, w, j, i) && w.calls[j].today == w.days.requests[i].now
    ensures WorldOk(v, sc, Taken(v, w, j, i))
  {
    var w' := Taken(v, w, j, i);
    assert RequestOk(v.cfg, sc, w.days, i);
    assert LoopOk(v, w, w.calls[j]);
    CallReplaced(v, w, w', j, w.calls[j].(request := Some(i)));
    forall p <- w'.totals, d <- w'.totals[p] ensures TotalOk(v, sc, w'.days, p, d, w'.totals[p][d]) {
      assert p in w.totals && d in w.totals[p];
    }
  }

  /** One more result, in a call that is otherwise the same. */
  lemma OneMoreResult<V(!new)>(v: Service<V>, w: World<V>, call: Call<V>, t: map<string, V>, pending: bool)
    requires LoopOk(v, w, call) && ResultsOk(v, w.days, call) && call.request.Some? && !call.pending
    requires call.next <= w.days.requests[call.request.value].now
    requires ResultOk(v, w.days, call.request.value, call.next, t)
    ensures var more := call.(results := call.results[call.next := t],
                              next := if pending then call.next else call.next + 1, pending := pending);
      LoopOk(v, w, more) && ResultsOk(v, w.days, more)
  {
  }

  lemma CheckRight<V(!new)>(v: Service<V>, sc: Scope, w: World<V>, j: nat)
    requires Lawful(v) && WorldOk(v, sc, w) && Unmixed(sc) && Ongoing(w, j)
    requires !w.calls[j].pending && w.calls[j].next <= RequestOf(w, j).now
    ensures LoopOk(v, w, Checked(v, w, j)) && ResultsOk(v, w.days, Checked(v, w, j))
  {
    var call, p := w.calls[j], PrefixOf(w, j);
    var i := call.request.value;
    assert LoopOk(v, w, call) && ResultsOk(v, w.days, call);
    if p in w.totals && call.next in w.totals[p] && call.next !in v.cfg.skip {
      assert RequestOk(v.cfg, sc, w.days, i);
      assert TotalOk(v, sc, w.days, p, call.next, w.totals[p][call.next]);
      HitTotalRight(v, sc, w.days, i, call.next, w.totals[p][call.next]);
      OneMoreResult(v, w, call, v.copy(w.totals[p][call.next]), false);
    } else {
      ReturnedIsSettled(v, sc, w.days, i);
      NextTotalRight(v, w, j);
      OneMoreResult(v, w, call, NextTotal(v, w, j), true);
    }
  }

  /** A result for a past day accounts for all its rows. */
  lemma PastResult<V(!new)>(v: Service<V>, s: State<Row, V>, i: nat, d: nat, t: map<string, V>)
    requires Settled(v, s, i) && d < s.requests[i].now && ResultOk(v, s, i, d, t)
    ensures TotalRight(v, s, s.requests[i].prefix, d, t)
  {
    DueIsRows(v, s, i, d + 1);
    SameRows(v, t, DueUpTo(v, s, i, d + 1), RowsUpTo(v, s, s.requests[i].prefix, d + 1));
  }

  lemma SameRows<V(!new)>(v: Service<V>, t: map<string, V>, rows: seq<Row>, rows': seq<Row>)
    requires rows == rows'
    ensures Totals(v, t, rows) <==> Totals(v, t, rows')
  {
  }

  /** A total that a call stores is one of a past day, so it is right for good. */
  lemma StoredIsRight<V(!new)>(v: Service<V>, sc: Scope, s: State<Row, V>, i: nat, d: nat, t: map<string, V>)
    requires Settled(v, s, i) && s.requests[i].prefix in sc.asked && d < s.requests[i].now && ResultOk(v, s, i, d, t)
    ensures TotalOk(v, sc, s, CachePrefix(s.requests[i].prefix), d, t)
  {
    PastResult(v, s, i, d, t);
    var q := s.requests[i].prefix;
    assert Serves(sc, CachePrefix(q), q) && TotalRight(v, s, q, d, t);
  }

  lemma SaveRight<V(!new)>(v: Service<V>, sc: Scope, w: World<V>, j: nat)
    requires Lawful(v) && WorldOk(v, sc, w) && Unmixed(sc) && Ongoing(w, j) && w.calls[j].pending
    ensures AllTotalsOk(v, sc, w.(totals := Saved(v, w, j)))
  {
    var call, p, saved := w.calls[j], PrefixOf(w, j), Saved(v, w, j);
    if saved != w.totals {
      var i, t := call.request.value, call.results[call.next];
      assert LoopOk(v, w, call) && ResultsOk(v, w.days, call);
      assert RequestOk(v.cfg, sc, w.days, i);
      ReturnedIsSettled(v, sc, w.days, i);
      StoredIsRight(v, sc, w.days, i, call.next, t);
      EnteredRight(v, sc, w, p, call.next, t);
    }
  }

  lemma EnteredRight<V(!new)>(v: Service<V>, sc: Scope, w: World<V>, p: string, d: nat, t: map<string, V>)
    requires AllTotalsOk(v, sc, w) && p in w.totals && TotalOk(v, sc, w.days, p, d, t)
    ensures AllTotalsOk(v, sc, w.(totals := w.totals[p := Entered(w.totals[p], d, t)]))
  {
    var saved := w.totals[p := Entered(w.totals[p], d, t)];
    forall q <- saved, e <- saved[q] ensures TotalOk(v, sc, w.days, q, e, saved[q][e]) {
      if q != p || e != d {
        assert q in w.totals && e in w.totals[q] && saved[q][e] == w.totals[q][e];
      }
    }
  }

  lemma SavedLoop<V(!new)>(v: Service<V>, w: World<V>, call: Call<V>)
    requires LoopOk(v, w, call) && call.pending
    ensures LoopOk(v, w, call.(pending := false, next := call.next + 1))
  {
  }

  lemma CheckDateKeeps<V(!new)>(v: Service<V>, sc: Scope, w: World<V>, j: nat)
    requires Lawful(v) && WorldOk(v, sc, w) && Unmixed(sc)
    ensures WorldOk(v, sc, Next(v, w, CheckDate(j)))
  {
    if Ongoing(w, j) && !w.calls[j].pending && w.calls[j].next <= RequestOf(w, j).now {
      CheckRight(v, sc, w, j);
      CallReplaced(v, w, Next(v, w, CheckDate(j)), j, Checked(v, w, j));
    }
  }

  lemma SaveDateKeeps<V(!new)>(v: Service<V>, sc: Scope, w: World<V>, j: nat)
    requires Lawful(v) && WorldOk(v, sc, w) && Unmixed(sc)
    ensures WorldOk(v, sc, Next(v, w, SaveDate(j)))
  {
    if Ongoing(w, j) && w.calls[j].pending {
      var call := w.calls[j];
      SaveRight(v, sc, w, j);
      assert LoopOk(v, w, call) && ResultsOk(v, w.days, call);
      SavedLoop(v, w, call);
      CallReplaced(v, w, Next(v, w, SaveDate(j)), j, call.(pending := false, next := call.next + 1));
    }
  }

  lemma ReadKeeps<V(!new)>(v: Service<V>, sc: Scope, w: World<V>)
    requires WorldOk(v, sc, w)
    ensures WorldOk(v, sc, Next(v, w, Read))
  {
    var w' := Next(v, w, Read);
    forall j | 0 <= j < |w'.calls| ensures LoopOk(v, w', w'.calls[j]) && ResultsOk(v, w'.days, w'.calls[j]) {
      if j < |w.calls| { assert LoopOk(v, w, w.calls[j]) && ResultsOk(v, w.days, w.calls[j]); }
    }
  }

  /** A request asks for a prefix of the scope. */
  ghost predicate InScope(e: Event, sc: Scope) {
    e.Base? && e.a.Begin? ==> e.a.prefix in sc.asked
  }

  lemma NextKeeps<V(!new)>(v: Service<V>, sc: Scope, w: World<V>, e: Event)
    requires Lawful(v) && WorldOk(v, sc, w) && Unmixed(sc) && InScope(e, sc) && Calm(v, w, e)
    ensures WorldOk(v, sc, Next(v, w, e))
  {
    match e
    case Base(a) => BaseKeeps(v, sc, w, a);
    case Read => ReadKeeps(v, sc, w);
    case Take(j, i) => if Takes(v, w, j, i) { TakeKeeps(v, sc, w, j, i); }
    case CheckDate(j) => CheckDateKeeps(v, sc, w, j);
    case SaveDate(j) => SaveDateKeeps(v, sc, w, j);
  }

  // ----- every run -----

  /** No call yet; both caches may have been loaded, if they were right for the scope. */
  ghost predicate Begins<V(!new)>(v: Service<V>, sc: Scope, w: World<V>) {
    Init(v.cfg, sc, w.days) && AllTotalsOk(v, sc, w) && w.calls == []
  }

  /** A run within the scope. */
  ghost predicate RunOf<V(!new)>(v: Service<V>, sc: Scope, w: World<V>, run: seq<Event>) {
    Begins(v, sc, w) && forall k :: 0 <= k < |run| ==> InScope(run[k], sc)
  }

  lemma {:induction false} AfterKeeps<V(!new)>(v: Service<V>, sc: Scope, w: World<V>, run: seq<Event>)
    requires Lawful(v) && Unmixed(sc) && RunOf(v, sc, w, run) && CalmRun(v, w, run)
    ensures WorldOk(v, sc, After(v, w, run))
  {
    if run != [] {
      var n := |run| - 1;
      forall k | 0 <= k < n ensures Calm(v, After(v, w, run[..n][..k]), run[..n][k]) {
        assert run[..n][..k] == run[..k];
        assert Calm(v, After(v, w, run[..k]), run[k]);
      }
      AfterKeeps(v, sc, w, run[..n]);
      assert Calm(v, After(v, w, run[..n]), run[n]);
      NextKeeps(v, sc, After(v, w, run[..n]), run[n]);
    }
  }

  /** All running totals are right: the results of all calls, and all that is cached. */
  ghost predicate AllRight<V(!new)>(v: Service<V>, sc: Scope, w: World<V>) {
    AllResultsOk(v, w) && AllTotalsOk(v, sc, w)
  }

  /** In every run without a mixed prefix and without a midnight inside a call's two readings
      of the clock, however calls, daily requests, arriving rows and midnights interleave,
      each cell of each running total is the total of the rows of all days up to it: for past
      days of all rows the database holds for the call's prefix, and for the day of the call
      of those present when it was read or, once another call has stored it, of all. */
  lemma EveryTotalRight<V(!new)>(
    v: Service<V>, sc: Scope, w0: World<V>, run: seq<Event>, j: nat, d: nat, c: string, x: string)
    requires Lawful(v) && Unmixed(sc) && RunOf(v, sc, w0, run) && CalmRun(v, w0, run)
    requires var w := After(v, w0, run); j < |w.calls| && d in w.calls[j].results
    ensures CellRight(v, After(v, w0, run), j, d, c, x)
  {
    AfterKeeps(v, sc, w0, run);
    ResultMeans(v, sc, After(v, w0, run), j, d, c, x);
  }

  /** All rows from the release up to but excluding day `hi`. */
  function DaysUpTo<V>(v: Service<V>, s: State<Row, V>, hi: nat): seq<Row> {
    if hi <= v.release then [] else DaysUpTo(v, s, hi - 1) + RowsOn(s, hi - 1)
  }

  /** The same as a request accounts for them: today as its worker read it. */
  function HeldUpTo<V>(s: State<Row, V>, i: nat, lo: nat, hi: nat): seq<Row> {
    if hi <= lo then [] else HeldUpTo(s, i, lo, hi - 1) + HeldOn(s, i, hi - 1)
  }

  function HeldOn<V>(s: State<Row, V>, i: nat, d: nat): seq<Row> {
    if Has(s, i, d) && s.workers[(i, d)].Done? then Held(s, i, d) else []
  }

  lemma {:induction false} QueriedDays<V(!new)>(v: Service<V>, s: State<Row, V>, q: string, hi: nat)
    ensures RowsUpTo(v, s, q, hi) == WithPrefix(v.cfg, DaysUpTo(v, s, hi), q)
  {
    if hi > v.release {
      QueriedDays(v, s, q, hi - 1);
      WithPrefixAppend(v.cfg, DaysUpTo(v, s, hi - 1), RowsOn(s, hi - 1), q);
    }
  }

  lemma DueOfHeld<V(!new)>(v: Service<V>, s: State<Row, V>, i: nat, d: nat)
    requires i < |s.requests|
    ensures DueOn(v, s, i, d) == WithPrefix(v.cfg, HeldOn(s, i, d), s.requests[i].prefix)
  {
  }

  lemma {:induction false} QueriedHeld<V(!new)>(v: Service<V>, s: State<Row, V>, i: nat, hi: nat)
    requires i < |s.requests|
    ensures DueUpTo(v, s, i, hi) == WithPrefix(v.cfg, HeldUpTo(s, i, v.release, hi), s.requests[i].prefix)
  {
    if hi > v.release {
      QueriedHeld(v, s, i, hi - 1);
      DueOfHeld(v, s, i, hi - 1);
      WithPrefixAppend(v.cfg, HeldUpTo(s, i, v.release, hi - 1), HeldOn(s, i, hi - 1), s.requests[i].prefix);
    }
  }

  lemma TotalOfDays<V(!new)>(v: Service<V>, s: State<Row, V>, i: nat, q: Query, hi: nat)
    requires Lawful(v) && i < |s.requests|
    ensures var p := s.requests[i].prefix;
      Total(q, RowsUpTo(v, s, p, hi)) == TotalUnder(q, p, DaysUpTo(v, s, hi))
      && Total(q, DueUpTo(v, s, i, hi)) == TotalUnder(q, p, HeldUpTo(s, i, v.release, hi))
  {
    var p := s.requests[i].prefix;
    QueriedDays(v, s, p, hi);
    QueriedHeld(v, s, i, hi);
    QueriedTotal(v.cfg, q, p, DaysUpTo(v, s, hi));
    QueriedTotal(v.cfg, q, p, HeldUpTo(s, i, v.release, hi));
  }

  ghost predicate CellRight<V(!new)>(v: Service<V>, w: World<V>, j: nat, d: nat, c: string, x: string)
    requires j < |w.calls| && d in w.calls[j].results
  {
    Ongoing(w, j) &&
    var r := RequestOf(w, j); var found := v.look(w.calls[j].results[d], c, x);
    var inDatabase := TotalUnder(v.cell(c, x), r.prefix, DaysUpTo(v, w.days, d + 1));
    v.release <= d <= r.now <= w.days.clock
    && (d < r.now ==> found == inDatabase)
    && (d == r.now ==>
          found == TotalUnder(v.cell(c, x), r.prefix, HeldUpTo(w.days, w.calls[j].request.value, v.release, d + 1))
          || (d < w.days.clock && found == inDatabase))
  }

  lemma ResultMeans<V(!new)>(v: Service<V>, sc: Scope, w: World<V>, j: nat, d: nat, c: string, x: string)
    requires Lawful(v) && WorldOk(v, sc, w) && Unmixed(sc) && j < |w.calls| && d in w.calls[j].results
    ensures CellRight(v, w, j, d, c, x)
  {
    var call := w.calls[j];
    assert LoopOk(v, w, call) && ResultsOk(v, w.days, call);
    ReturnedIsSettled(v, sc, w.days, call.request.value);
    var i, t := call.request.value, call.results[d];
    if d < RequestOf(w, j).now { PastResult(v, w.days, i, d, t); }
    OneCell(v, w.days, i, d, t, c, x);
  }

  lemma OneCell<V(!new)>(v: Service<V>, s: State<Row, V>, i: nat, d: nat, t: map<string, V>, c: string, x: string)
    requires Lawful(v) && i < |s.requests| && ResultOk(v, s, i, d, t)
    ensures v.look(t, c, x) == TotalUnder(v.cell(c, x), s.requests[i].prefix, HeldUpTo(s, i, v.release, d + 1))
            || (d < s.clock && v.look(t, c, x) == TotalUnder(v.cell(c, x), s.requests[i].prefix, DaysUpTo(v, s, d + 1)))
    ensures TotalRight(v, s, s.requests[i].prefix, d, t) ==>
              v.look(t, c, x) == TotalUnder(v.cell(c, x), s.requests[i].prefix, DaysUpTo(v, s, d + 1))
  {
    TotalOfDays(v, s, i, v.cell(c, x), d + 1);
  }

  /** A call that has gone through all dates has a result for each day from the release to
      its own. */
  lemma FinishedCallHasAllDays<V(!new)>(v: Service<V>, sc: Scope, w0: World<V>, run: seq<Event>, j: nat, d: nat)
    requires Lawful(v) && Unmixed(sc) && RunOf(v, sc, w0, run) && CalmRun(v, w0, run)
    requires var w := After(v, w0, run); Ongoing(w, j) && w.calls[j].next > RequestOf(w, j).now
    ensures var w := After(v, w0, run);
      d in w.calls[j].results <==> v.release <= d <= RequestOf(w, j).now
  {
    AfterKeeps(v, sc, w0, run);
    var w := After(v, w0, run);
    assert LoopOk(v, w, w.calls[j]);
  }
}
