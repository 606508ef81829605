/** The promises made to the servers and to the network: how many queries, how often;
    and the books of every reachable state. */
module Budgets {
  import opened ServerState
  import opened Sums
  import opened Protocol
  import opened Checks
  import opened Invariant
  import opened Safety
  import Bar

  /* ---- the number of queries ----------------------------------------------------- */

  ghost function ServerLog(cfg: Config, log: seq<Dispatch>, i: nat): int {
    Sum(NumChecks(cfg), (c: nat) => LogCount(log, i, c))
  }

  ghost function TotalLog(cfg: Config, log: seq<Dispatch>): int {
    Sum(NumServers(cfg), (i: nat) => ServerLog(cfg, log, i))
  }

  lemma ServerLogAdd(cfg: Config, log: seq<Dispatch>, d: Dispatch, i: nat)
    requires d.check < NumChecks(cfg)
    ensures ServerLog(cfg, log + [d], i) == ServerLog(cfg, log, i) + Bit(i == d.srv)
  {
    var f, g := (c: nat) => LogCount(log, i, c), (c: nat) => LogCount(log + [d], i, c);
    forall c: nat ensures g(c) == f(c) + Bit(d.srv == i && d.check == c) {
      LogCountAdd(log, d, i, c);
    }
    if i == d.srv {
      SumChange(NumChecks(cfg), f, g, d.check);
    } else {
      SumEqual(NumChecks(cfg), f, g);
    }
  }

  lemma TotalLogAdd(cfg: Config, log: seq<Dispatch>, d: Dispatch)
    requires d.srv < NumServers(cfg) && d.check < NumChecks(cfg)
    ensures TotalLog(cfg, log + [d]) == TotalLog(cfg, log) + 1
  {
    var f, g := (i: nat) => ServerLog(cfg, log, i), (i: nat) => ServerLog(cfg, log + [d], i);
    forall i: nat ensures g(i) == f(i) + Bit(i == d.srv) {
      ServerLogAdd(cfg, log, d, i);
    }
    SumChange(NumServers(cfg), f, g, d.srv);
  }

  /** The record is the sum of its entries, counted per server and check. */
  lemma {:induction false} LogIsSum(cfg: Config, log: seq<Dispatch>)
    requires forall k :: 0 <= k < |log| ==> log[k].srv < NumServers(cfg) && log[k].check < NumChecks(cfg)
    ensures TotalLog(cfg, log) == |log|
  {
    if log == [] {
      var f := (i: nat) => ServerLog(cfg, log, i);
      forall i: nat ensures f(i) == 0 {
        SumZero(NumChecks(cfg), (c: nat) => LogCount(log, i, c));
      }
      SumZero(NumServers(cfg), f);
    } else {
      var n := |log| - 1;
      LogIsSum(cfg, log[..n]);
      assert log == log[..n] + [log[n]];
      TotalLogAdd(cfg, log[..n], log[n]);
    }
  }

  function MostQueries(cfg: Config): nat {
    NumServers(cfg) * (NumChecks(cfg) * cfg.maxAttempts)
  }

  lemma LogBound(cfg: Config, s: State)
    requires PoolOk(cfg, s) && LogOk(cfg, s)
    ensures |s.log| <= MostQueries(cfg)
  {
    LogIsSum(cfg, s.log);
    forall i: nat ensures 0 <= ServerLog(cfg, s.log, i) <= NumChecks(cfg) * cfg.maxAttempts {
      SumBounds(NumChecks(cfg), (c: nat) => LogCount(s.log, i, c), 0, cfg.maxAttempts);
    }
    SumBounds(NumServers(cfg), (i: nat) => ServerLog(cfg, s.log, i), 0, NumChecks(cfg) * cfg.maxAttempts);
  }

  /** No run ever makes more than servers * checks * maxAttempts queries, nor queries one
      check of one server more than maxAttempts times. */
  lemma QueryBound(cfg: Config, run: seq<State>, k: nat)
    requires Behaviour(cfg, run) && k < |run|
    ensures |run[k].log| <= MostQueries(cfg)
    ensures forall i: nat, c: nat :: LogCount(run[k].log, i, c) <= cfg.maxAttempts
  {
    Always(cfg, run, k);
    LogBound(cfg, run[k]);
  }

  /** The global request budget: after r refills at most maxTokens + r * refillAmount
      queries have been dispatched, given-back tokens and all. */
  lemma GlobalBudget(cfg: Config, run: seq<State>, k: nat)
    requires Behaviour(cfg, run) && k < |run|
    ensures |run[k].log| <= cfg.limits.max + run[k].refills * cfg.limits.refill
    ensures run[k].tokens <= cfg.limits.max
  {
    Always(cfg, run, k);
  }

  /* ---- the rate at one server -------------------------------------------------------- */

  /** Dispatches to server i with a time stamp in [lo, hi]. */
  function CountWithin(log: seq<Dispatch>, i: nat, lo: int, hi: int): nat {
    if log == [] then 0
    else
      var d := log[|log| - 1];
      CountWithin(log[..|log| - 1], i, lo, hi) + (if d.srv == i && lo <= d.time <= hi then 1 else 0)
  }

  /** A narrower window that holds every dispatch there is in the wider one. */
  lemma {:induction false} NarrowWindow(log: seq<Dispatch>, i: nat, lo: int, hi: int, hi2: int)
    requires hi2 <= hi && forall k :: 0 <= k < |log| && log[k].srv == i ==> log[k].time <= hi2
    ensures CountWithin(log, i, lo, hi) == CountWithin(log, i, lo, hi2)
  {
    if log != [] { NarrowWindow(log[..|log| - 1], i, lo, hi, hi2); }
  }

  lemma {:induction false} NoneWithin(log: seq<Dispatch>, i: nat, lo: int, hi: int)
    requires hi < lo
    ensures CountWithin(log, i, lo, hi) == 0
  {
    if log != [] { NoneWithin(log[..|log| - 1], i, lo, hi); }
  }

  /** The dispatches to a server before its last one are an interval older. */
  lemma EarlierDispatches(cfg: Config, log: seq<Dispatch>, i: nat, lo: int, hi: int)
    requires log != [] && Spaced(cfg, log) && log[|log| - 1].srv == i && log[|log| - 1].time <= hi
    ensures var n := |log| - 1;
            CountWithin(log[..n], i, lo, hi) == CountWithin(log[..n], i, lo, log[n].time - cfg.interval)
  {
    var n := |log| - 1;
    NarrowWindow(log[..n], i, lo, hi, log[n].time - cfg.interval);
  }

  /** So many dispatches, an interval apart, fit into a stretch of time. */
  predicate FitInto(count: nat, interval: nat, span: int) {
    count >= 1 ==> (count - 1) * interval <= span
  }

  lemma OneMoreFits(count: nat, interval: nat, span: int, longer: int)
    requires FitInto(count, interval, span) && span + interval <= longer && longer >= 0
    ensures FitInto(count + 1, interval, longer)
  {
  }

  /** Spaced dispatches: one more than the number of whole intervals that fit. */
  lemma {:induction false} WindowBound(cfg: Config, log: seq<Dispatch>, i: nat, lo: int, hi: int)
    requires Spaced(cfg, log) && cfg.interval > 0
    ensures FitInto(CountWithin(log, i, lo, hi), cfg.interval, hi - lo)
    decreases |log|
  {
    if log != [] {
      var n := |log| - 1;
      var d := log[n];
      SpacedFront(cfg, log);
      if d.srv == i && lo <= d.time <= hi {
        var before := d.time - cfg.interval;
        EarlierDispatches(cfg, log, i, lo, hi);
        WindowBound(cfg, log[..n], i, lo, before);
        OneMoreFits(CountWithin(log[..n], i, lo, before), cfg.interval, before - lo, hi - lo);
      } else {
        WindowBound(cfg, log[..n], i, lo, hi);
      }
    }
  }

  lemma SpacedFront(cfg: Config, log: seq<Dispatch>)
    requires log != [] && Spaced(cfg, log)
    ensures Spaced(cfg, log[..|log| - 1])
  {
  }

  lemma Monotone(a: int, b: int, m: nat)
    requires a <= b
    ensures a * m <= b * m
  {
  }

  lemma WholeIntervals(count: nat, interval: nat, span: nat)
    requires interval > 0 && FitInto(count, interval, span)
    ensures count <= 1 + span / interval
  {
    var q := span / interval;
    assert span < q * interval + interval;
    if count >= q + 2 {
      Monotone(q + 1, count - 1, interval);
    }
  }

  /** The per-server rate limit over whole runs: successive dispatches to one server are
      at least the interval apart, retries and both passes included; so any window of
      length T >= 0 holds at most 1 + floor(T / interval) of them. */
  lemma ServerRate(cfg: Config, run: seq<State>, k: nat, i: nat, start: int, length: nat)
    requires Behaviour(cfg, run) && k < |run|
    ensures forall a, b :: 0 <= a < b < |run[k].log| && run[k].log[a].srv == run[k].log[b].srv ==>
              run[k].log[a].time + cfg.interval <= run[k].log[b].time
    ensures cfg.interval > 0 ==> CountWithin(run[k].log, i, start, start + length) <= 1 + length / cfg.interval
  {
    Always(cfg, run, k);
    if cfg.interval > 0 {
      SpacedWindow(cfg, run[k].log, i, start, length);
    }
  }

  lemma SpacedWindow(cfg: Config, log: seq<Dispatch>, i: nat, start: int, length: nat)
    requires Spaced(cfg, log) && cfg.interval > 0
    ensures CountWithin(log, i, start, start + length) <= 1 + length / cfg.interval
  {
    WindowBound(cfg, log, i, start, start + length);
    WholeIntervals(CountWithin(log, i, start, start + length), cfg.interval, length);
  }

  /* ---- the books of a loaded server ----------------------------------------------------- */

  /** The number of checks of a server that are marked passed. */
  ghost function PassedCount(cfg: Config, srv: Server): int {
    Sum(NumChecks(cfg), (c: nat) => Bit(c < |srv.checks| && srv.checks[c].passed))
  }

  /** Every check of a loaded server is pending once, or out once, or done; the counters
      agree; whatever is pending or out has an attempt left; and the server is not
      finished. */
  lemma Partition(cfg: Config, run: seq<State>, k: nat, i: nat)
    requires Behaviour(cfg, run) && k < |run| && i in run[k].pool
    ensures var s := run[k];
            var srv := s.pool[i];
            && |srv.checks| == NumChecks(cfg) && !Finished(srv)
            && srv.completed + |srv.pending| + InFlight(s, i) == NumChecks(cfg)
            && srv.failed + PassedCount(cfg, srv) == srv.completed
            && (forall c: nat :: c < NumChecks(cfg) ==>
                  && Times(srv.pending, c) + Out(s, i, c) <= 1
                  && (Times(srv.pending, c) + Out(s, i, c) == 1 ==> 1 <= srv.checks[c].attemptsLeft <= cfg.maxAttempts))
  {
    Always(cfg, run, k);
    var s := run[k];
    BooksOfServer(cfg, s, i);
  }

  lemma BooksOfServer(cfg: Config, s: State, i: nat)
    requires ServersOk(cfg, s) && InFlightOk(cfg, s) && i in s.pool
    ensures var srv := s.pool[i];
            && |srv.checks| == NumChecks(cfg) && !Finished(srv)
            && srv.completed + |srv.pending| + InFlight(s, i) == NumChecks(cfg)
            && srv.failed + PassedCount(cfg, srv) == srv.completed
            && (forall c: nat :: c < NumChecks(cfg) ==>
                  && Times(srv.pending, c) + Out(s, i, c) <= 1
                  && (Times(srv.pending, c) + Out(s, i, c) == 1 ==> 1 <= srv.checks[c].attemptsLeft <= cfg.maxAttempts))
  {
    var srv := s.pool[i];
    assert ServerOk(cfg, i, srv, OutOf(s, i), LoggedOf(s, i));
    CountsAddUp(cfg, i, srv, OutOf(s, i), LoggedOf(s, i));
    FailedPlusPassed(cfg, i, srv, OutOf(s, i), LoggedOf(s, i));
    SumEqual(NumChecks(cfg), (c: nat) => Bit(c < |srv.checks| && srv.checks[c].passed),
        (c: nat) => Bit(c < |srv.checks| && srv.checks[c].passed));
    forall c: nat | c < NumChecks(cfg)
      ensures Times(srv.pending, c) + Out(s, i, c) <= 1
      ensures Times(srv.pending, c) + Out(s, i, c) == 1 ==> 1 <= srv.checks[c].attemptsLeft <= cfg.maxAttempts
    {
      assert CheckOk(cfg, i, c, srv.checks[c], Times(srv.pending, c), OutOf(s, i)(c), LoggedOf(s, i)(c));
    }
  }

  /* ---- the books of the whole program ------------------------------------------------------ */

  ghost function LoadedWork(cfg: Config, pool: map<nat, Server>): nat -> int {
    (i: nat) => if i in pool then NumChecks(cfg) - pool[i].completed else 0
  }

  lemma {:induction false} SplitWork(cfg: Config, pool: map<nat, Server>, nextSlot: nat, queued: nat)
    requires forall i :: i in pool ==> i < nextSlot
    ensures Sum(nextSlot + queued, LeftOf(cfg, pool, nextSlot)) ==
            Sum(nextSlot, LoadedWork(cfg, pool)) + queued * NumChecks(cfg)
    decreases queued
  {
    if queued == 0 {
      SumEqual(nextSlot, LeftOf(cfg, pool, nextSlot), LoadedWork(cfg, pool));
    } else {
      SplitWork(cfg, pool, nextSlot, queued - 1);
      OneFewer(queued, NumChecks(cfg));
    }
  }

  lemma OneFewer(p: int, m: int)
    ensures p * m == (p - 1) * m + m
  {
  }

  function Indices(n: nat): (r: set<nat>)
    ensures |r| == n && forall i: nat :: i in r <==> i < n
  {
    if n == 0 then {} else Indices(n - 1) + {n - 1}
  }

  function Members(p: seq<nat>): (r: set<nat>)
    ensures forall i: nat :: i in r <==> i in p
  {
    if p == [] then {} else Members(p[..|p| - 1]) + {p[|p| - 1]}
  }

  lemma {:induction false} MembersSize(p: seq<nat>)
    requires forall a, b :: 0 <= a < b < |p| ==> p[a] != p[b]
    ensures |Members(p)| == |p|
  {
    if p != [] {
      MembersSize(p[..|p| - 1]);
      assert p[|p| - 1] !in p[..|p| - 1];
    }
  }

  lemma SplitSize(a: set<nat>, b: set<nat>, n: nat)
    requires forall i: nat :: i in a <==> i < n && i !in b
    requires forall i: nat :: i in b ==> i < n
    ensures |a| + |b| == n
  {
    assert a !! b;
    assert a + b == Indices(n);
    assert |a + b| == |a| + |b|;
  }

  lemma EveryServerSomewhere(cfg: Config, s: State)
    requires PoolOk(cfg, s) && ReportsOk(cfg, s)
    ensures |s.reported| + |s.pool| == s.nextSlot
  {
    MembersSize(s.reported);
    SplitSize(Members(s.reported), s.pool.Keys, s.nextSlot);
    assert |s.pool.Keys| == |s.pool|;
  }

  lemma WorkOfLoaded(cfg: Config, s: State)
    requires PoolOk(cfg, s) && AccountOk(cfg, s)
    ensures s.status.total - s.status.done ==
              Sum(s.nextSlot, LoadedWork(cfg, s.pool)) + NumPending(cfg, s) * NumChecks(cfg)
  {
    var queued: nat := NumPending(cfg, s);
    assert s.nextSlot + queued == NumServers(cfg);
    QueuedWork(cfg, s.pool, s.nextSlot, queued, NumServers(cfg));
  }

  lemma QueuedWork(cfg: Config, pool: map<nat, Server>, nextSlot: nat, queued: nat, all: nat)
    requires (forall i :: i in pool ==> i < nextSlot) && all == nextSlot + queued
    ensures Sum(all, LeftOf(cfg, pool, nextSlot)) == Sum(nextSlot, LoadedWork(cfg, pool)) + queued * NumChecks(cfg)
  {
    SplitWork(cfg, pool, nextSlot, queued);
  }

  /** Conservation: the planned checks not yet done are those of the loaded servers plus
      those of the queue; and every server is reported, loaded or queued. */
  lemma Conservation(cfg: Config, run: seq<State>, k: nat)
    requires Behaviour(cfg, run) && k < |run|
    ensures var s := run[k];
            && s.status.total - s.status.done ==
                 Sum(s.nextSlot, LoadedWork(cfg, s.pool)) + NumPending(cfg, s) * NumChecks(cfg)
            && s.status.valid + s.status.invalid + |s.pool| + NumPending(cfg, s) == NumServers(cfg)
  {
    Always(cfg, run, k);
    WorkOfLoaded(cfg, run[k]);
    EveryServerSomewhere(cfg, run[k]);
  }

  /** Slot ids are never reused, the pool stays within its bound, the in-flight map counts
      the outstanding queries, and a result whose server has left the pool belongs to a
      server that was disabled. */
  lemma PoolSafety(cfg: Config, run: seq<State>, k: nat)
    requires Behaviour(cfg, run) && k < |run|
    ensures var s := run[k];
            && s.nextSlot == s.dequeueIdx && |s.pool| <= cfg.maxPool
            && (forall i :: i in s.pool ==> i < s.nextSlot && !Finished(s.pool[i]) && i !in s.cancelled)
            && (forall j :: 0 <= j < |s.results| && s.results[j].srv !in s.pool ==> s.results[j].srv in s.cancelled)
            && (forall i: nat :: InFlight(s, i) == Sum(NumChecks(cfg), OutOf(s, i)))
            && (forall i :: i in s.inFlight ==> s.inFlight[i] > 0)
  {
    Always(cfg, run, k);
    var s := run[k];
    forall i | i in s.pool ensures !Finished(s.pool[i]) {
      assert ServerOk(cfg, i, s.pool[i], OutOf(s, i), LoggedOf(s, i));
    }
    forall j | 0 <= j < |s.results| && s.results[j].srv !in s.pool ensures s.results[j].srv in s.cancelled {
      assert ResultOk(cfg, s, s.results[j]);
    }
  }

  /** Slot i has been given out and its server has left the pool. */
  ghost predicate Gone(s: State, i: nat) {
    i < s.nextSlot && i !in s.pool
  }

  lemma {:induction false} LoadKeepsGone(cfg: Config, s: State, n: nat, i: nat)
    requires Gone(s, i)
    ensures Gone(LoadedN(cfg, s, n), i)
    decreases n
  {
    if n > 0 && CanGrow(cfg, s) {
      LoadKeepsGone(cfg, LoadedOne(cfg, s), n - 1, i);
    }
  }

  lemma StepKeepsGone(cfg: Config, s: State, s': State, i: nat)
    requires Next(cfg, s, s') && Gone(s, i)
    ensures Gone(s', i)
  {
    if OtherMove(cfg, s, s') {
      OtherKeepsPool(cfg, s, s');
    } else if Load(cfg, s, s') {
      LoadKeepsGone(cfg, s, Budget(s), i);
    } else if j: nat :| Visit(s, s', j) {
    }
  }

  lemma OtherKeepsPool(cfg: Config, s: State, s': State)
    requires OtherMove(cfg, s, s')
    ensures s'.pool == s.pool && s'.nextSlot == s.nextSlot
  {
  }

  /** A slot id is never reused: once its server has left, no server has it again. */
  lemma {:induction false} SlotsNotReused(cfg: Config, run: seq<State>, k: nat, l: nat, i: nat)
    requires Behaviour(cfg, run) && k <= l < |run| && Gone(run[k], i)
    ensures i !in run[l].pool
  {
    var keep := (s: State) => Gone(s, i);
    forall s: State, s': State | keep(s) && Next(cfg, s, s') ensures keep(s') {
      StepKeepsGone(cfg, s, s', i);
    }
    RunKeeps(cfg, run, keep, k, l);
  }

  /** The reporter counts as many servers done as there are exactly when the pool and the
      queue are empty. */
  lemma FinishedWhenDrained(cfg: Config, run: seq<State>, k: nat)
    requires Behaviour(cfg, run) && k < |run|
    ensures run[k].status.valid + run[k].status.invalid == NumServers(cfg) <==> IsDrained(cfg, run[k])
  {
    Always(cfg, run, k);
    EveryServerSomewhere(cfg, run[k]);
  }

  /** So the progress bar never has more servers to show than there are. */
  lemma BarFits(cfg: Config, run: seq<State>, k: nat)
    requires Behaviour(cfg, run) && k < |run|
    ensures Bar.Fits(run[k].status.valid, run[k].status.invalid, NumServers(cfg))
  {
    Always(cfg, run, k);
    EveryServerSomewhere(cfg, run[k]);
    OutputWithinReports(cfg, run[k].reported);
  }

  lemma {:induction false} OutputWithinReports(cfg: Config, reported: seq<nat>)
    ensures |OutputOf(cfg, reported)| <= |reported|
  {
    if reported != [] { OutputWithinReports(cfg, reported[..|reported| - 1]); }
  }
}
