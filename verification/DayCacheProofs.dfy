/** Every step keeps the day-cache invariant; hence it holds in every run. */
module DayCacheProofs {
  import opened DayCache

  /** What no step undoes: past rows stay, tables other than `except` keep their readings
      and their chains, requests keep their parameters. */
  ghost predicate Extends<Row(!new), V(!new)>(
    cfg: Config<Row, V>, s: State<Row, V>, s': State<Row, V>, except: int)
  {
    s.clock <= s'.clock
    && (forall d: nat :: d < s.clock ==> RowsOn(s', d) == RowsOn(s, d))
    && |s.heap| <= |s'.heap|
    && (forall r :: 0 <= r < |s.heap| && r != except ==>
          Same(cfg, s'.heap[r], s.heap[r]) && s.heap[r].Keys <= s'.heap[r].Keys)
    && |s.requests| <= |s'.requests|
    && (forall i :: 0 <= i < |s.requests| ==>
          s'.requests[i].prefix == s.requests[i].prefix
          && s'.requests[i].first == s.requests[i].first && s'.requests[i].now == s.requests[i].now)
    && (forall p <- s.cache :: p in s'.cache && s.cache[p].Keys <= s'.cache[p].Keys)
  }

  lemma CacheOkStable<Row(!new), V(!new)>(
    cfg: Config<Row, V>, sc: Scope, s: State<Row, V>, s': State<Row, V>, except: int, p: string, d: nat, ref: Ref)
    requires Extends(cfg, s, s', except) && CacheOk(cfg, sc, s, p, d, ref) && ref != except
    ensures CacheOk(cfg, sc, s', p, d, ref)
  {
    RightStable(cfg, sc, s, s', except, p, d, ref);
  }

  lemma ReadsLikeStable<Row(!new), V(!new)>(
    cfg: Config<Row, V>, s: State<Row, V>, s': State<Row, V>, except: int, ref: Ref, q: string, d: nat)
    requires Extends(cfg, s, s', except) && ReadsLike(cfg, s, ref, q, d) && ref != except && d < s.clock
    ensures ReadsLike(cfg, s', ref, q, d)
  {
    assert Same(cfg, s'.heap[ref], s.heap[ref]);
  }

  lemma RightStable<Row(!new), V(!new)>(
    cfg: Config<Row, V>, sc: Scope, s: State<Row, V>, s': State<Row, V>, except: int, p: string, d: nat, ref: Ref)
    requires Extends(cfg, s, s', except) && Right(cfg, sc, s, p, d, ref) && ref != except && d < s.clock
    ensures Right(cfg, sc, s', p, d, ref)
  {
    var q :| Serves(sc, p, q) && ReadsLike(cfg, s, ref, q, d);
    ReadsLikeStable(cfg, s, s', except, ref, q, d);
  }

  lemma WorkerOkStable<Row(!new), V(!new)>(
    cfg: Config<Row, V>, sc: Scope, s: State<Row, V>, s': State<Row, V>, except: int, w: Slot, k: Worker<Row>)
    requires Extends(cfg, s, s', except) && WorkerOk(cfg, sc, s, w, k)
    requires s.requests[w.0].now <= s.clock
    requires k.Waiting? || k.ref != except
    ensures WorkerOk(cfg, sc, s', w, k)
  {
    var r := s.requests[w.0];
    match k
    case Waiting =>
    case Fetching(_) =>
    case Storing(ref, _) => ReadsLikeStable(cfg, s, s', except, ref, r.prefix, w.1);
    case Done(ref, _) =>
      assert Same(cfg, s'.heap[ref], s.heap[ref]);
      if w.1 < r.now { RightStable(cfg, sc, s, s', except, CachePrefix(r.prefix), w.1, ref); }
  }

  /** A request none of whose workers moves is unaffected by the step. */
  lemma RequestOkStable<Row(!new), V(!new)>(
    cfg: Config<Row, V>, sc: Scope, s: State<Row, V>, s': State<Row, V>, except: int, i: nat)
    requires Extends(cfg, s, s', except)
    requires i < |s.requests| && s'.requests[i] == s.requests[i] && RequestOk(cfg, sc, s, i)
    requires forall d: nat :: (i, d) in s.workers ==>
               (i, d) in s'.workers && s'.workers[(i, d)] == s.workers[(i, d)]
    requires forall d: nat :: (i, d) in s.workers && s.workers[(i, d)].Done? ==>
               s.workers[(i, d)].ref < |s.heap| && s.workers[(i, d)].ref != except
    ensures RequestOk(cfg, sc, s', i)
  {
    var r := s.requests[i];
    assert Unfinished(s', i) == Unfinished(s, i);
    forall d: nat | r.first <= d <= r.now && !r.stage.Running?
      ensures Same(cfg, AnswerTable(s', i, d), AnswerTable(s, i, d))
      ensures AnswerTable(s, i, d).Keys <= AnswerTable(s', i, d).Keys
    {
      assert d !in Unfinished(s, i);
    }
    if !r.stage.Running? {
      forall d: nat, c | r.first <= d <= r.now && Entry(cfg, AnswerTable(s', i, d), c) != cfg.blank
        ensures c in r.stage.seen
      {
        assert Same(cfg, AnswerTable(s', i, d), AnswerTable(s, i, d));
        assert Entry(cfg, AnswerTable(s, i, d), c) != cfg.blank;
      }
    }
  }

  /** A worker that is not done keeps its request waiting; finishing it drops the count by
      one. */
  lemma WorkerFinishes<Row(!new), V(!new)>(s: State<Row, V>, s': State<Row, V>, i: nat, d: nat)
    requires Has(s, i, d) && !s.workers[(i, d)].Done?
    requires s.requests[i].first <= d <= s.requests[i].now
    requires i < |s'.requests|
    requires s'.requests[i].first == s.requests[i].first && s'.requests[i].now == s.requests[i].now
    requires (i, d) in s'.workers && s'.workers == s.workers[(i, d) := s'.workers[(i, d)]]
    ensures |Unfinished(s, i)| > 0
    ensures |Unfinished(s', i)| == |Unfinished(s, i)| - (if s'.workers[(i, d)].Done? then 1 else 0)
  {
    assert d in Unfinished(s, i);
    if s'.workers[(i, d)].Done? {
      assert Unfinished(s', i) == Unfinished(s, i) - {d};
    } else {
      assert Unfinished(s', i) == Unfinished(s, i);
    }
  }

  lemma MovedRequest<Row(!new), V(!new)>(
    cfg: Config<Row, V>, sc: Scope, s: State<Row, V>, s': State<Row, V>, i: nat, d: nat)
    requires Has(s, i, d) && !s.workers[(i, d)].Done? && RequestOk(cfg, sc, s, i)
    requires s.requests[i].first <= d <= s.requests[i].now
    requires s.clock <= s'.clock && i < |s'.requests|
    requires (i, d) in s'.workers && s'.workers == s.workers[(i, d) := s'.workers[(i, d)]]
    requires s'.requests[i] == s.requests[i].(
               wg := s.requests[i].wg - (if s'.workers[(i, d)].Done? then 1 else 0))
    ensures RequestOk(cfg, sc, s', i)
  {
    WorkerFinishes(s, s', i, d);
  }

  /** One worker moves on and everything else is kept. */
  lemma WorkerMoves<Row(!new), V(!new)>(
    cfg: Config<Row, V>, sc: Scope, s: State<Row, V>, s': State<Row, V>, except: int, i: nat, d: nat)
    requires WorkersOk(cfg, sc, s) && RequestsOk(cfg, sc, s)
    requires Has(s, i, d) && !s.workers[(i, d)].Done?
    requires Extends(cfg, s, s', except)
    requires forall x <- s.workers :: x != (i, d) && !s.workers[x].Waiting? ==> s.workers[x].ref != except
    requires (i, d) in s'.workers && s'.workers == s.workers[(i, d) := s'.workers[(i, d)]]
    requires s'.requests == s.requests[i := s.requests[i].(
               wg := s.requests[i].wg - (if s'.workers[(i, d)].Done? then 1 else 0))]
    requires WorkerOk(cfg, sc, s', (i, d), s'.workers[(i, d)])
    ensures WorkersOk(cfg, sc, s') && RequestsOk(cfg, sc, s')
  {
    forall w <- s'.workers ensures WorkerOk(cfg, sc, s', w, s'.workers[w]) {
      if w != (i, d) {
        assert WorkerOk(cfg, sc, s, w, s.workers[w]);
        assert RequestOk(cfg, sc, s, w.0);
        WorkerOkStable(cfg, sc, s, s', except, w, s.workers[w]);
      }
    }
    forall j | 0 <= j < |s'.requests| ensures RequestOk(cfg, sc, s', j) {
      assert RequestOk(cfg, sc, s, j);
      if j == i {
        assert WorkerOk(cfg, sc, s, (i, d), s.workers[(i, d)]);
        MovedRequest(cfg, sc, s, s', i, d);
      } else {
        forall e: nat | (j, e) in s.workers && s.workers[(j, e)].Done?
          ensures s.workers[(j, e)].ref < |s.heap| && s.workers[(j, e)].ref != except
        {
          assert WorkerOk(cfg, sc, s, (j, e), s.workers[(j, e)]);
        }
        RequestOkStable(cfg, sc, s, s', except, j);
      }
    }
  }

  /** A step that moves no worker and changes no request. */
  lemma NobodyMoves<Row(!new), V(!new)>(cfg: Config<Row, V>, sc: Scope, s: State<Row, V>, s': State<Row, V>)
    requires Inv(cfg, sc, s) && Extends(cfg, s, s', -1)
    requires s'.workers == s.workers && s'.cache == s.cache && s'.requests == s.requests
    ensures Inv(cfg, sc, s')
  {
    CachesKept(cfg, sc, s, s', -1);
    forall w <- s'.workers
      ensures WorkerOk(cfg, sc, s', w, s'.workers[w])
      ensures s'.workers[w].Fetching? ==> Private(s', w)
    {
      assert WorkerOk(cfg, sc, s, w, s.workers[w]);
      assert RequestOk(cfg, sc, s, w.0);
      WorkerOkStable(cfg, sc, s, s', -1, w, s.workers[w]);
      assert s.workers[w].Fetching? ==> Private(s, w);
    }
    forall j | 0 <= j < |s'.requests| ensures RequestOk(cfg, sc, s', j) {
      UntouchedRequest(cfg, sc, s, s', j);
    }
  }

  // ----- the steps, one by one -----

  /** The cache holds what it held, as far as the heap goes. */
  ghost predicate CacheWithin<Row(!new), V(!new)>(s: State<Row, V>, s': State<Row, V>) {
    forall q <- s'.cache, e <- s'.cache[q] :: q in s.cache && e in s.cache[q] && s.cache[q][e] == s'.cache[q][e]
  }

  lemma CachesKept<Row(!new), V(!new)>(cfg: Config<Row, V>, sc: Scope, s: State<Row, V>, s': State<Row, V>, except: int)
    requires CachesOk(cfg, sc, s) && Extends(cfg, s, s', except) && CacheWithin(s, s')
    requires forall q <- s.cache, e <- s.cache[q] :: s.cache[q][e] != except
    ensures CachesOk(cfg, sc, s')
  {
    forall q <- s'.cache, e <- s'.cache[q] ensures CacheOk(cfg, sc, s', q, e, s'.cache[q][e]) {
      CacheOkStable(cfg, sc, s, s', except, q, e, s.cache[q][e]);
    }
  }

  /** What a hit hands out reads like the day. */
  lemma HitIsRight<Row(!new), V(!new)>(cfg: Config<Row, V>, sc: Scope, s: State<Row, V>, i: nat, d: nat)
    requires Inv(cfg, sc, s) && Has(s, i, d) && s.workers[(i, d)].Waiting? && Hit(cfg, s, i, d)
    ensures CheckStep(cfg, s, i, d).workers[(i, d)].Done?
    ensures WorkerOk(cfg, sc, CheckStep(cfg, s, i, d), (i, d), CheckStep(cfg, s, i, d).workers[(i, d)])
  {
    var r := s.requests[i];
    assert WorkerOk(cfg, sc, s, (i, d), Waiting);
    assert RequestOk(cfg, sc, s, i);
    var p := CachePrefix(r.prefix);
    assert CacheOk(cfg, sc, s, p, d, s.cache[p][d]);
    CheckExtends(cfg, s, i, d);
    RightStable(cfg, sc, s, CheckStep(cfg, s, i, d), -1, p, d, s.cache[p][d]);
  }

  lemma CheckHitKeeps<Row(!new), V(!new)>(cfg: Config<Row, V>, sc: Scope, s: State<Row, V>, i: nat, d: nat)
    requires Inv(cfg, sc, s) && Has(s, i, d) && s.workers[(i, d)].Waiting? && Hit(cfg, s, i, d)
    ensures Inv(cfg, sc, CheckStep(cfg, s, i, d))
  {
    var s' := CheckStep(cfg, s, i, d);
    HitIsRight(cfg, sc, s, i, d);
    CheckExtends(cfg, s, i, d);
    CachesKept(cfg, sc, s, s', -1);
    WorkerMoves(cfg, sc, s, s', -1, i, d);
    HitKeepsPrivate(cfg, s, i, d);
  }

  lemma CheckExtends<Row(!new), V(!new)>(cfg: Config<Row, V>, s: State<Row, V>, i: nat, d: nat)
    requires Has(s, i, d)
    ensures Extends(cfg, s, CheckStep(cfg, s, i, d), -1) && CacheWithin(s, CheckStep(cfg, s, i, d))
  {
  }

  lemma HitKeepsPrivate<Row(!new), V(!new)>(cfg: Config<Row, V>, s: State<Row, V>, i: nat, d: nat)
    requires AllPrivate(s) && Has(s, i, d) && Hit(cfg, s, i, d) && s.workers[(i, d)].Waiting?
    ensures AllPrivate(CheckStep(cfg, s, i, d))
  {
    var s' := CheckStep(cfg, s, i, d);
    forall w <- s'.workers | s'.workers[w].Fetching? ensures Private(s', w) {
      assert Private(s, w);
    }
  }

  lemma CheckMissKeeps<Row(!new), V(!new)>(cfg: Config<Row, V>, sc: Scope, s: State<Row, V>, i: nat, d: nat)
    requires Inv(cfg, sc, s) && Has(s, i, d) && s.workers[(i, d)].Waiting? && !Hit(cfg, s, i, d)
    ensures Inv(cfg, sc, CheckStep(cfg, s, i, d))
  {
    var s' := CheckStep(cfg, s, i, d);
    assert WorkerOk(cfg, sc, s, (i, d), Waiting);
    CheckExtends(cfg, s, i, d);
    CachesKept(cfg, sc, s, s', -1);
    WorkerMoves(cfg, sc, s, s', -1, i, d);
    MissKeepsPrivate(cfg, sc, s, i, d);
  }

  lemma MissKeepsPrivate<Row(!new), V(!new)>(cfg: Config<Row, V>, sc: Scope, s: State<Row, V>, i: nat, d: nat)
    requires CachesOk(cfg, sc, s) && WorkersOk(cfg, sc, s) && AllPrivate(s)
    requires Has(s, i, d) && s.workers[(i, d)].Waiting? && !Hit(cfg, s, i, d)
    ensures AllPrivate(CheckStep(cfg, s, i, d))
  {
    var s' := CheckStep(cfg, s, i, d);
    forall w <- s'.workers | s'.workers[w].Fetching? ensures Private(s', w) {
      if w == (i, d) {
        FreshIsPrivate(cfg, sc, s, s', w);
      } else {
        assert WorkerOk(cfg, sc, s, w, s.workers[w]);
        StillPrivate(s, s', w, (i, d));
      }
    }
  }

  lemma StillPrivate<Row(!new), V(!new)>(s: State<Row, V>, s': State<Row, V>, w: Slot, moved: Slot)
    requires w in s.workers && s.workers[w].Fetching? && Private(s, w)
    requires w in s'.workers && s'.workers[w] == s.workers[w]
    requires forall x <- s'.workers :: x != moved ==> x in s.workers && s'.workers[x] == s.workers[x]
    requires moved in s'.workers && !s'.workers[moved].Waiting? ==> s'.workers[moved].ref != s.workers[w].ref
    requires CacheWithin(s, s')
    ensures Private(s', w)
  {
  }

  lemma FreshIsPrivate<Row(!new), V(!new)>(
    cfg: Config<Row, V>, sc: Scope, s: State<Row, V>, s': State<Row, V>, w: Slot)
    requires CachesOk(cfg, sc, s) && WorkersOk(cfg, sc, s)
    requires w in s'.workers && s'.workers[w] == Fetching(|s.heap|)
    requires forall x <- s'.workers :: x != w ==> x in s.workers && s'.workers[x] == s.workers[x]
    requires CacheWithin(s, s')
    ensures Private(s', w)
  {
    forall x <- s'.workers | x != w && !s'.workers[x].Waiting? ensures s'.workers[x].ref != |s.heap| {
      assert WorkerOk(cfg, sc, s, x, s.workers[x]);
    }
    forall q <- s'.cache, e <- s'.cache[q] ensures s'.cache[q][e] != |s.heap| {
      assert CacheOk(cfg, sc, s, q, e, s.cache[q][e]);
    }
  }

  /** Filling a private table disturbs nobody else. */
  lemma FetchExtends<Row(!new), V(!new)>(cfg: Config<Row, V>, sc: Scope, s: State<Row, V>, i: nat, d: nat)
    requires Inv(cfg, sc, s) && Has(s, i, d) && s.workers[(i, d)].Fetching?
    ensures var s' := FetchStep(cfg, s, i, d);
      Extends(cfg, s, s', s.workers[(i, d)].ref) && WorkerOk(cfg, sc, s', (i, d), s'.workers[(i, d)])
  {
    assert WorkerOk(cfg, sc, s, (i, d), s.workers[(i, d)]);
    assert RequestOk(cfg, sc, s, i);
  }

  lemma FetchMoves<Row(!new), V(!new)>(cfg: Config<Row, V>, sc: Scope, s: State<Row, V>, i: nat, d: nat)
    requires Inv(cfg, sc, s) && Has(s, i, d) && s.workers[(i, d)].Fetching?
    ensures WorkersOk(cfg, sc, FetchStep(cfg, s, i, d)) && RequestsOk(cfg, sc, FetchStep(cfg, s, i, d))
  {
    FetchExtends(cfg, sc, s, i, d);
    assert Private(s, (i, d));
    WorkerMoves(cfg, sc, s, FetchStep(cfg, s, i, d), s.workers[(i, d)].ref, i, d);
  }

  lemma FetchKeepsCaches<Row(!new), V(!new)>(cfg: Config<Row, V>, sc: Scope, s: State<Row, V>, i: nat, d: nat)
    requires Inv(cfg, sc, s) && Has(s, i, d) && s.workers[(i, d)].Fetching?
    ensures CachesOk(cfg, sc, FetchStep(cfg, s, i, d))
  {
    FetchExtends(cfg, sc, s, i, d);
    assert Private(s, (i, d));
    CachesKept(cfg, sc, s, FetchStep(cfg, s, i, d), s.workers[(i, d)].ref);
  }

  lemma FetchKeeps<Row(!new), V(!new)>(cfg: Config<Row, V>, sc: Scope, s: State<Row, V>, i: nat, d: nat)
    requires Inv(cfg, sc, s) && Has(s, i, d) && s.workers[(i, d)].Fetching?
    ensures Inv(cfg, sc, FetchStep(cfg, s, i, d))
  {
    FetchMoves(cfg, sc, s, i, d);
    FetchKeepsCaches(cfg, sc, s, i, d);
    FetchKeepsPrivate(cfg, s, i, d);
  }

  lemma FetchKeepsPrivate<Row(!new), V(!new)>(cfg: Config<Row, V>, s: State<Row, V>, i: nat, d: nat)
    requires AllPrivate(s) && Has(s, i, d) && s.workers[(i, d)].Fetching?
    ensures AllPrivate(FetchStep(cfg, s, i, d))
  {
    var s' := FetchStep(cfg, s, i, d);
    forall w <- s'.workers | s'.workers[w].Fetching? ensures Private(s', w) {
      assert Private(s, w);
    }
  }

  lemma StoreMoves<Row(!new), V(!new)>(cfg: Config<Row, V>, sc: Scope, s: State<Row, V>, i: nat, d: nat)
    requires Inv(cfg, sc, s) && Has(s, i, d) && s.workers[(i, d)].Storing?
    ensures WorkersOk(cfg, sc, StoreStep(cfg, s, i, d)) && RequestsOk(cfg, sc, StoreStep(cfg, s, i, d))
  {
    StoreExtends(cfg, sc, s, i, d);
    WorkerMoves(cfg, sc, s, StoreStep(cfg, s, i, d), -1, i, d);
  }

  lemma StoreKeeps<Row(!new), V(!new)>(cfg: Config<Row, V>, sc: Scope, s: State<Row, V>, i: nat, d: nat)
    requires Inv(cfg, sc, s) && Has(s, i, d) && s.workers[(i, d)].Storing?
    ensures Inv(cfg, sc, StoreStep(cfg, s, i, d))
  {
    StoreMoves(cfg, sc, s, i, d);
    StoreKeepsCaches(cfg, sc, s, i, d);
    StoreKeepsPrivate(cfg, s, i, d);
  }

  lemma StoreExtends<Row(!new), V(!new)>(cfg: Config<Row, V>, sc: Scope, s: State<Row, V>, i: nat, d: nat)
    requires Inv(cfg, sc, s) && Has(s, i, d) && s.workers[(i, d)].Storing?
    ensures var s' := StoreStep(cfg, s, i, d);
      Extends(cfg, s, s', -1) && WorkerOk(cfg, sc, s', (i, d), s'.workers[(i, d)])
  {
    assert WorkerOk(cfg, sc, s, (i, d), s.workers[(i, d)]);
    assert RequestOk(cfg, sc, s, i);
    var s', prefix := StoreStep(cfg, s, i, d), s.requests[i].prefix;
    assert Serves(sc, CachePrefix(prefix), prefix);
    assert ReadsLike(cfg, s', s.workers[(i, d)].ref, prefix, d);
  }

  lemma StoreKeepsPrivate<Row(!new), V(!new)>(cfg: Config<Row, V>, s: State<Row, V>, i: nat, d: nat)
    requires AllPrivate(s) && Has(s, i, d) && s.workers[(i, d)].Storing?
    ensures AllPrivate(StoreStep(cfg, s, i, d))
  {
    var s' := StoreStep(cfg, s, i, d);
    var k := s.workers[(i, d)];
    forall w <- s'.workers | s'.workers[w].Fetching? ensures Private(s', w) {
      assert Private(s, w) && k.ref != s.workers[w].ref;
      forall p <- s'.cache, e <- s'.cache[p] ensures s'.cache[p][e] != s.workers[w].ref {
        assert s'.cache[p][e] == k.ref || (p in s.cache && e in s.cache[p] && s'.cache[p][e] == s.cache[p][e]);
      }
    }
  }

  lemma StoreKeepsCaches<Row(!new), V(!new)>(cfg: Config<Row, V>, sc: Scope, s: State<Row, V>, i: nat, d: nat)
    requires Inv(cfg, sc, s) && Has(s, i, d) && s.workers[(i, d)].Storing?
    ensures CachesOk(cfg, sc, StoreStep(cfg, s, i, d))
  {
    var s' := StoreStep(cfg, s, i, d);
    var r, k := s.requests[i], s.workers[(i, d)];
    assert WorkerOk(cfg, sc, s, (i, d), k);
    assert RequestOk(cfg, sc, s, i);
    assert Serves(sc, CachePrefix(r.prefix), r.prefix);
    assert CacheOk(cfg, sc, s, CachePrefix(r.prefix), d, k.ref);
    StoreExtends(cfg, sc, s, i, d);
    forall q <- s'.cache, e <- s'.cache[q] ensures CacheOk(cfg, sc, s', q, e, s'.cache[q][e]) {
      assert CacheOk(cfg, sc, s, q, e, s'.cache[q][e]);
      CacheOkStable(cfg, sc, s, s', -1, q, e, s'.cache[q][e]);
    }
  }

  lemma BeginKeeps<Row(!new), V(!new)>(cfg: Config<Row, V>, sc: Scope, s: State<Row, V>, prefix: string, first: nat)
    requires Inv(cfg, sc, s) && prefix in sc.asked && first <= s.clock
    ensures Inv(cfg, sc, Step(cfg, s, Begin(prefix, first)))
  {
    var s' := Step(cfg, s, Begin(prefix, first));
    var n := |s.requests|;
    assert s'.workers == s.workers + NewWorkers(n, first, s.clock);
    assert Extends(cfg, s, s', -1);
    forall w <- s.workers ensures w.0 < n {
      assert WorkerOk(cfg, sc, s, w, s.workers[w]);
    }
    CachesKept(cfg, sc, s, s', -1);
    NewWorkersOk(cfg, sc, s, s');
    BeginKeepsRequests(cfg, sc, s, s', first);
  }

  lemma BeginKeepsRequests<Row(!new), V(!new)>(
    cfg: Config<Row, V>, sc: Scope, s: State<Row, V>, s': State<Row, V>, first: nat)
    requires WorkersOk(cfg, sc, s) && RequestsOk(cfg, sc, s) && Extends(cfg, s, s', -1)
    requires |s'.requests| == |s.requests| + 1 && s.requests <= s'.requests
    requires s'.workers == s.workers + NewWorkers(|s.requests|, first, s.clock)
    requires var r := s'.requests[|s.requests|];
      r == Request(r.prefix, first, s.clock, s.clock - first + 1, Running) && r.prefix in sc.asked && first <= s.clock
    requires forall w <- s.workers :: w.0 < |s.requests|
    ensures RequestsOk(cfg, sc, s')
  {
    forall j | 0 <= j < |s'.requests| ensures RequestOk(cfg, sc, s', j) {
      if j < |s.requests| {
        UntouchedRequest(cfg, sc, s, s', j);
      } else {
        Interval(Unfinished(s', j), first, s.clock);
      }
    }
  }

  /** Adding workers that wait, within the days of their request. */
  lemma NewWorkersOk<Row(!new), V(!new)>(cfg: Config<Row, V>, sc: Scope, s: State<Row, V>, s': State<Row, V>)
    requires WorkersOk(cfg, sc, s) && RequestsOk(cfg, sc, s) && AllPrivate(s) && Extends(cfg, s, s', -1)
    requires s'.cache == s.cache
    requires forall w <- s'.workers :: if w in s.workers then s'.workers[w] == s.workers[w]
               else s'.workers[w] == Waiting && WorkerOk(cfg, sc, s', w, Waiting)
    ensures WorkersOk(cfg, sc, s') && AllPrivate(s')
  {
    forall w <- s'.workers ensures WorkerOk(cfg, sc, s', w, s'.workers[w]) {
      if w in s.workers {
        assert WorkerOk(cfg, sc, s, w, s.workers[w]);
        assert RequestOk(cfg, sc, s, w.0);
        WorkerOkStable(cfg, sc, s, s', -1, w, s.workers[w]);
      }
    }
    forall w <- s'.workers | s'.workers[w].Fetching? ensures Private(s', w) {
      assert Private(s, w);
    }
  }

  lemma UntouchedRequest<Row(!new), V(!new)>(cfg: Config<Row, V>, sc: Scope, s: State<Row, V>, s': State<Row, V>, j: nat)
    requires WorkersOk(cfg, sc, s) && RequestsOk(cfg, sc, s) && Extends(cfg, s, s', -1)
    requires j < |s.requests| && s'.requests[j] == s.requests[j]
    requires forall d: nat :: (j, d) in s.workers ==> (j, d) in s'.workers && s'.workers[(j, d)] == s.workers[(j, d)]
    ensures RequestOk(cfg, sc, s', j)
  {
    assert RequestOk(cfg, sc, s, j);
    forall e: nat | (j, e) in s.workers && s.workers[(j, e)].Done? ensures s.workers[(j, e)].ref < |s.heap| {
      assert WorkerOk(cfg, sc, s, (j, e), s.workers[(j, e)]);
    }
    RequestOkStable(cfg, sc, s, s', -1, j);
  }

  lemma {:induction false} Interval(days: set<nat>, lo: nat, hi: nat)
    requires lo <= hi && forall d: nat :: d in days <==> lo <= d <= hi
    ensures |days| == hi - lo + 1
    decreases hi
  {
    if lo == hi {
      assert days == {lo};
    } else {
      Interval(days - {hi}, lo, hi - 1);
    }
  }

  /** Changing only the stage of one request, to one that is right about its answers. */
  lemma StageKeeps<Row(!new), V(!new)>(cfg: Config<Row, V>, sc: Scope, s: State<Row, V>, i: nat, stage: Stage)
    requires Inv(cfg, sc, s) && i < |s.requests| && !stage.Running?
    requires s.requests[i].wg == 0 && Covers(cfg, s, i, stage.seen)
    requires stage.Returned? ==>
               forall d: nat :: s.requests[i].first <= d <= s.requests[i].now ==>
                 stage.seen <= AnswerTable(s, i, d).Keys
    ensures Inv(cfg, sc, SetStage(s, i, stage))
  {
    var s' := SetStage(s, i, stage);
    assert Extends(cfg, s, s', -1);
    CachesKept(cfg, sc, s, s', -1);
    NewWorkersOk(cfg, sc, s, s');
    forall j | 0 <= j < |s'.requests| ensures RequestOk(cfg, sc, s', j) {
      if j == i {
        StagedRequest(cfg, sc, s, i, stage);
      } else {
        UntouchedRequest(cfg, sc, s, s', j);
      }
    }
  }

  lemma StagedRequest<Row(!new), V(!new)>(cfg: Config<Row, V>, sc: Scope, s: State<Row, V>, i: nat, stage: Stage)
    requires i < |s.requests| && RequestOk(cfg, sc, s, i) && !stage.Running?
    requires s.requests[i].wg == 0 && Covers(cfg, s, i, stage.seen)
    requires stage.Returned? ==>
               forall d: nat :: s.requests[i].first <= d <= s.requests[i].now ==>
                 stage.seen <= AnswerTable(s, i, d).Keys
    ensures RequestOk(cfg, sc, SetStage(s, i, stage), i)
  {
    var s' := SetStage(s, i, stage);
    assert Unfinished(s', i) == Unfinished(s, i);
    assert forall d: nat :: AnswerTable(s', i, d) == AnswerTable(s, i, d);
  }

  lemma {:induction false} SeenChainsHas<Row(!new), V(!new)>(
    cfg: Config<Row, V>, s: State<Row, V>, i: nat, lo: nat, hi: nat, d: nat)
    requires Sound(cfg) && lo <= d < hi
    ensures AnswerTable(s, i, d).Keys <= SeenChains(cfg, s, i, lo, hi)
    decreases hi
  {
    if d < hi - 1 { SeenChainsHas(cfg, s, i, lo, hi - 1, d); }
  }

  lemma CollectKeeps<Row(!new), V(!new)>(cfg: Config<Row, V>, sc: Scope, s: State<Row, V>, i: nat)
    requires Sound(cfg) && Inv(cfg, sc, s)
    requires i < |s.requests| && s.requests[i].stage.Running? && s.requests[i].wg == 0
    ensures Inv(cfg, sc, Step(cfg, s, Collect(i)))
  {
    var r := s.requests[i];
    var seen := SeenChains(cfg, s, i, r.first, r.now + 1);
    forall d: nat, c | r.first <= d <= r.now && Entry(cfg, AnswerTable(s, i, d), c) != cfg.blank
      ensures c in seen
    {
      SeenChainsHas(cfg, s, i, r.first, r.now + 1, d);
    }
    StageKeeps(cfg, sc, s, i, Padding(seen));
  }

  /** The three steps of a worker. */
  lemma WorkerStepKeeps<Row(!new), V(!new)>(cfg: Config<Row, V>, sc: Scope, s: State<Row, V>, a: Action<Row>)
    requires Inv(cfg, sc, s) && (a.Check? || a.Fetch? || a.Store?)
    ensures Inv(cfg, sc, Step(cfg, s, a))
  {
    if Has(s, a.i, a.d) {
      if a.Check? && s.workers[(a.i, a.d)].Waiting? {
        if Hit(cfg, s, a.i, a.d) { CheckHitKeeps(cfg, sc, s, a.i, a.d); } else { CheckMissKeeps(cfg, sc, s, a.i, a.d); }
      } else if a.Fetch? && s.workers[(a.i, a.d)].Fetching? {
        FetchKeeps(cfg, sc, s, a.i, a.d);
      } else if a.Store? && s.workers[(a.i, a.d)].Storing? {
        StoreKeeps(cfg, sc, s, a.i, a.d);
      }
    }
  }

  /** The steps of a request other than starting it. */
  lemma RequestStepKeeps<Row(!new), V(!new)>(cfg: Config<Row, V>, sc: Scope, s: State<Row, V>, a: Action<Row>)
    requires Sound(cfg) && Inv(cfg, sc, s) && (a.Collect? || a.Return?)
    ensures Inv(cfg, sc, Step(cfg, s, a))
  {
    if a.i < |s.requests| {
      if a.Collect? && s.requests[a.i].stage.Running? && s.requests[a.i].wg == 0 {
        CollectKeeps(cfg, sc, s, a.i);
      } else if a.Return? && s.requests[a.i].stage.Padding? && PadDone(s, a.i) {
        assert RequestOk(cfg, sc, s, a.i);
        StageKeeps(cfg, sc, s, a.i, Returned(s.requests[a.i].stage.seen));
      }
    }
  }

  lemma StepKeeps<Row(!new), V(!new)>(cfg: Config<Row, V>, sc: Scope, s: State<Row, V>, a: Action<Row>)
    requires Sound(cfg) && Inv(cfg, sc, s) && (a.Begin? ==> a.prefix in sc.asked)
    ensures Inv(cfg, sc, Step(cfg, s, a))
  {
    match a
    case Ingest(row) => IngestKeeps(cfg, sc, s, row);
    case Tick => TickKeeps(cfg, sc, s);
    case Begin(prefix, first) => if first <= s.clock { BeginKeeps(cfg, sc, s, prefix, first); }
    case Pad(i, d, chain) => PadKeeps(cfg, sc, s, i, d, chain);
    case Collect(_) => RequestStepKeeps(cfg, sc, s, a);
    case Return(_) => RequestStepKeeps(cfg, sc, s, a);
    case _ => WorkerStepKeeps(cfg, sc, s, a);
  }

  lemma TickKeeps<Row(!new), V(!new)>(cfg: Config<Row, V>, sc: Scope, s: State<Row, V>)
    requires Inv(cfg, sc, s)
    ensures Inv(cfg, sc, Step(cfg, s, Tick))
  {
    NobodyMoves(cfg, sc, s, Step(cfg, s, Tick));
  }

  /** A new row is dated today, so no past day changes. */
  lemma IngestKeeps<Row(!new), V(!new)>(cfg: Config<Row, V>, sc: Scope, s: State<Row, V>, row: Row)
    requires Inv(cfg, sc, s)
    ensures Inv(cfg, sc, Step(cfg, s, Ingest(row)))
  {
    NobodyMoves(cfg, sc, s, Step(cfg, s, Ingest(row)));
  }

  /** Padding writes through to whoever shares the table, but changes no reading. */
  lemma PadKeeps<Row(!new), V(!new)>(cfg: Config<Row, V>, sc: Scope, s: State<Row, V>, i: nat, d: nat, chain: string)
    requires Inv(cfg, sc, s)
    ensures Inv(cfg, sc, Step(cfg, s, Pad(i, d, chain)))
  {
    PadExtends(cfg, s, i, d, chain);
    NobodyMoves(cfg, sc, s, Step(cfg, s, Pad(i, d, chain)));
  }

  lemma PadExtends<Row(!new), V(!new)>(cfg: Config<Row, V>, s: State<Row, V>, i: nat, d: nat, chain: string)
    ensures var s' := Step(cfg, s, Pad(i, d, chain));
      Extends(cfg, s, s', -1) && s'.workers == s.workers && s'.cache == s.cache && s'.requests == s.requests
  {
    var s' := Step(cfg, s, Pad(i, d, chain));
    if s' != s {
      var ref := s.workers[(i, d)].ref;
      assert s'.heap == s.heap[ref := s.heap[ref][chain := cfg.blank]];
    }
  }

  lemma {:induction false} RunKeeps<Row(!new), V(!new)>(
    cfg: Config<Row, V>, sc: Scope, s: State<Row, V>, run: seq<Action<Row>>)
    requires Sound(cfg) && Init(cfg, sc, s) && AsksWithin(run, sc)
    ensures Inv(cfg, sc, Run(cfg, s, run))
  {
    if run != [] {
      RunKeeps(cfg, sc, s, run[..|run| - 1]);
      StepKeeps(cfg, sc, Run(cfg, s, run[..|run| - 1]), run[|run| - 1]);
    }
  }
}
