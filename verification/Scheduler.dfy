/** The scheduling loop itself, with its channels and maps. Between any two of its actions
    the other goroutines move as they like. A ghost field records the protocol states
    passed through; every method proves that the record stays a behaviour of the protocol. */
module Scheduler {
  import opened Answers
  import opened ServerState
  import opened Bucket
  import opened Sets
  import opened Sums
  import opened Protocol
  import opened WorkerSteps
  import opened Safety
  import opened Liveness
  import opened Verdicts
  import opened Ending
  import opened Budgets
  import opened Servers
  import TurnRules

  /* ---- about recorded runs ------------------------------------------------------- */

  /** How often the loop has come round: LoadN, or its omission, ends a turn. */
  ghost function Turns(run: seq<State>): nat {
    if |run| < 2 then 0
    else
      Turns(run[..|run| - 1])
      + (if run[|run| - 2].phase.Loading? && run[|run| - 1].phase == Collecting then 1 else 0)
  }

  lemma {:induction false} TurnsGrow(a: seq<State>, b: seq<State>)
    requires a <= b
    ensures Turns(a) <= Turns(b)
    decreases |b|
  {
    if a == b {
    } else {
      assert a <= b[..|b| - 1];
      TurnsGrow(a, b[..|b| - 1]);
    }
  }

  lemma TurnEnds(run: seq<State>, s': State)
    requires |run| > 0 && Last(run).phase.Loading? && s'.phase == Collecting
    ensures Turns(run + [s']) == Turns(run) + 1
  {
    assert (run + [s'])[..|run|] == run;
  }

  /* ---- the scheduler -------------------------------------------------------------- */

  class QueryScheduler {
    const cfg: Config
    const maxThreads: nat        // the capacity of both channels
    const pool: ServerPool
    const status: StatusReporter
    // shared with the other goroutines
    var clock: int
    var tokens: nat
    var workers: seq<Job>        // started and not yet sent
    var unreleased: nat          // sent, job slot still held
    var results: seq<WorkerResult>
    var cancelled: set<nat>      // servers whose context is cancelled
    // a local of the scheduling loop
    var inFlight: map<nat, nat>
    ghost var run: seq<State>

    ghost function Now(): State
      reads this
      requires |run| > 0
    {
      Last(run)
    }

    /** The fields and records are those of protocol state s. */
    ghost predicate Shows(s: State)
      reads this, pool, pool.pool.Values, status
    {
      && s.clock == clock && s.tokens == tokens && s.workers == workers && s.unreleased == unreleased
      && s.results == results && s.cancelled == cancelled && s.inFlight == inFlight
      && pool.Shows(cfg, s) && s.status == status.View()
    }

    ghost predicate Valid()
      reads this, pool, pool.pool.Values, status
    {
      && |run| > 0 && Behaviour(cfg, run) && maxThreads == Cap(cfg)
      && pool.Valid() && Shows(Now())
    }

    constructor (cfg: Config, clock: int)
      requires GoodConfig(cfg) && clock >= 0
      ensures Valid() && Now().phase == Collecting && this.cfg == cfg && fresh(pool) && fresh(status)
      ensures pool.pool == map[] && |run| == 1
      ensures maxThreads <= cfg.maxThreads && maxThreads <= |cfg.servers| * |cfg.template|
      ensures maxThreads == cfg.maxThreads || maxThreads == |cfg.servers| * |cfg.template|
      ensures tokens == cfg.limits.max && this.clock == clock
      ensures workers == [] && unreleased == 0 && results == [] && cancelled == {} && inFlight == map[]
    {
      this.cfg, this.clock := cfg, clock;
      var all := |cfg.servers| * |cfg.template|;
      maxThreads := if cfg.maxThreads <= all then cfg.maxThreads else all;
      var pool := new ServerPool(cfg.maxPool, cfg.servers, cfg.template, cfg.maxAttempts);
      var status := new StatusReporter(|cfg.servers|, |cfg.template|);
      this.pool, this.status := pool, status;
      tokens := cfg.limits.max;
      workers, unreleased, results, cancelled, inFlight := [], 0, [], {}, map[];
      run := [State(Collecting, clock, cfg.limits.max, 0, [], 0, [], map[], 0, 0, map[], {}, status.View(), [], [])];
      new;
      assert pool.Views() == map[];
      assert Init(cfg, run[0]);
    }

    /** At every moment the running workers and unreleased slots are within the thread limit. */
    lemma WithinThreadLimit()
      requires Valid()
      ensures |workers| + unreleased <= cfg.maxThreads && |workers| + unreleased <= |cfg.servers| * |cfg.template|
      ensures |results| <= cfg.maxThreads
    {
      TurnRules.JobLimit(cfg, run, |run| - 1);
    }

    /* ---- the other goroutines ---- */

    /** Worker k sends its result; it is blocked while the channel is full. Only a
        cancelled context lets its answer differ from the oracle's. */
    method WorkerSends(k: nat, whenCancelled: Reply)
      requires Valid() && k < |workers| && |results| < maxThreads
      modifies this`workers, this`unreleased, this`results, this`run
      ensures Valid() && old(run) <= run && Now().phase == old(Now().phase)
      ensures |workers| == old(|workers|) - 1 && |results| == old(|results|) + 1 && unreleased == old(unreleased) + 1
      ensures old(results) <= results
    {
      var job := workers[k];
      var reply := if job.srv in cancelled then whenCancelled else cfg.oracle(job.srv, job.check, job.attempt);
      ghost var s := Now();
      workers := Drop(workers, k);
      unreleased := unreleased + 1;
      results := results + [WorkerResult(job.srv, job.check, reply)];
      ghost var s' := s.(workers := workers, unreleased := unreleased, results := results);
      assert Send(cfg, s, s', k, reply);
      ExtendOther(cfg, run, s');
      run := run + [s'];
    }

    method WorkerReleases()
      requires Valid() && unreleased > 0
      modifies this`unreleased, this`run
      ensures Valid() && old(run) <= run && Now().phase == old(Now().phase)
      ensures unreleased == old(unreleased) - 1
    {
      ghost var s := Now();
      unreleased := unreleased - 1;
      ghost var s' := s.(unreleased := unreleased);
      assert Release(s, s');
      ExtendOther(cfg, run, s');
      run := run + [s'];
    }

    method RefillerTicks()
      requires Valid()
      modifies this`tokens, this`run
      ensures Valid() && old(run) <= run && Now().phase == old(Now().phase)
    {
      ghost var s := Now();
      tokens := Apply(cfg.limits, Refill, tokens);
      ghost var s' := s.(tokens := tokens, refills := s.refills + 1);
      assert RefillTick(cfg, s, s');
      ExtendOther(cfg, run, s');
      run := run + [s'];
    }

    method ClockMoves(time: int)
      requires Valid() && time >= clock
      modifies this`clock, this`run
      ensures Valid() && old(run) <= run && Now().phase == old(Now().phase)
      ensures clock == time
    {
      ghost var s := Now();
      clock := time;
      ghost var s' := s.(clock := time);
      assert ClockTick(s, s', time);
      ExtendOther(cfg, run, s');
      run := run + [s'];
    }

    /** Whatever the other goroutines get done between two actions of the scheduler. */
    method OtherGoroutines()
      requires Valid()
      modifies this`clock, this`tokens, this`workers, this`unreleased, this`results, this`run
      ensures Valid() && old(run) <= run && Now().phase == old(Now().phase)
      ensures |workers| + |results| == old(|workers| + |results|) && old(results) <= results
      ensures clock >= old(clock)
    {
      var moves: int := *;
      while moves > 0
        invariant Valid() && old(run) <= run && Now().phase == old(Now().phase)
        invariant |workers| + |results| == old(|workers| + |results|) && old(results) <= results
        invariant clock >= old(clock)
      {
        moves := moves - 1;
        var who: int, k: nat, reply: Reply, time: int := *, *, *, *;
        if who == 0 && k < |workers| && |results| < maxThreads {
          WorkerSends(k, reply);
        } else if who == 1 && unreleased > 0 {
          WorkerReleases();
        } else if who == 2 {
          RefillerTicks();
        } else if time >= clock {
          ClockMoves(time);
        }
      }
    }

    /** The step that has been taken is written into the record. */
    method Record(ghost s': State)
      requires |run| > 0 && Behaviour(cfg, run + [s']) && maxThreads == Cap(cfg) && pool.Valid() && Shows(s')
      modifies this`run
      ensures Valid() && run == old(run) + [s']
    {
      run := run + [s'];
    }

    /* ---- collecting results ---- */

    ghost function AppliedTo(srv: Server, res: WorkerResult): Server
      requires res.check < |srv.checks|
    {
      Applied(srv, res.check, res.reply, cfg.maxFailures)
    }

    ghost function CountedFor(st: Status, srv: Server, res: WorkerResult): Status
      requires res.check < |srv.checks|
    {
      Counted(st, TotalDelta(srv, res.check, res.reply, cfg.maxFailures))
    }

    /** Applies a result to a server of the pool; the other records stay as they are. */
    method ApplyToLoaded(srv: ServerContext, res: WorkerResult)
      requires pool.Valid() && res.srv in pool.pool && pool.pool[res.srv] == srv && res.check < |srv.checks|
      modifies srv, status
      ensures srv.View() == AppliedTo(old(srv.View()), res)
      ensures pool.Views() == old(pool.Views())[res.srv := srv.View()]
      ensures status.View() == CountedFor(old(status.View()), old(srv.View()), res)
    {
      ApplyResults(srv, res, cfg.maxFailures, status);
    }

    /** Reports and unloads a finished server. */
    method Retire(id: nat, srv: ServerContext)
      requires pool.Valid() && id in pool.pool && pool.pool[id] == srv
      modifies pool, status
      ensures pool.Valid() && pool.dequeueIdx == old(pool.dequeueIdx) && pool.nextSlot == old(pool.nextSlot)
      ensures pool.pool == old(pool.pool) - {id} && pool.Views() == old(pool.Views()) - {id}
      ensures status.View() == Reported(old(status.View()), old(srv.View()))
    {
      status.ReportFinishedServer(srv);
      pool.Unload(id);
    }

    ghost predicate ResultFits(views: map<nat, Server>, res: WorkerResult) {
      res.srv in views ==> res.check < |views[res.srv].checks|
    }

    /** What one received result does to the records. */
    ghost predicate TakenIn(views: map<nat, Server>, st: Status, res: WorkerResult, views': map<nat, Server>,
        st': Status, cancels: bool)
      requires ResultFits(views, res)
    {
      if res.srv !in views then views' == views && st' == st && !cancels
      else
        var after := AppliedTo(views[res.srv], res);
        var counted := CountedFor(st, views[res.srv], res);
        && cancels == after.disabled
        && if Finished(after) then views' == views - {res.srv} && st' == Reported(counted, after)
           else views' == views[res.srv := after] && st' == counted
    }

    method TakeIn(res: WorkerResult, ghost views: map<nat, Server>, ghost st: Status) returns (cancels: bool)
      requires pool.Valid() && pool.Views() == views && status.View() == st && ResultFits(views, res)
      modifies pool, pool.pool.Values, status
      ensures pool.Valid() && pool.dequeueIdx == old(pool.dequeueIdx) && pool.nextSlot == old(pool.nextSlot)
      ensures pool.pool.Values <= old(pool.pool.Values)
      ensures TakenIn(views, st, res, pool.Views(), status.View(), cancels)
    {
      cancels := false;
      var got := pool.Get(res.srv);
      if got == None { return; }
      var srv := got.value;
      assert views[res.srv] == srv.View();
      ApplyToLoaded(srv, res);
      cancels := srv.disabled;
      if srv.Done() {
        Retire(res.srv, srv);
      }
    }

    /** The protocol state after a result was taken in, given what became of the records. */
    ghost function AfterTakingIn(s: State, views: map<nat, Server>, st: Status, cancels: bool): State
      requires |s.results| > 0
    {
      var id := s.results[0].srv;
      s.(results := s.results[1..], inFlight := Decremented(s.inFlight, id), pool := views, status := st,
         cancelled := if cancels then s.cancelled + {id} else s.cancelled,
         reported := if id in s.pool && id !in views then s.reported + [id] else s.reported)
    }

    lemma TakenInIsCollected(s: State, views: map<nat, Server>, st: Status, cancels: bool)
      requires |s.results| > 0
      requires var res := s.results[0];
               ResultFits(s.pool, res) && TakenIn(s.pool, s.status, res, views, st, cancels)
      ensures AfterTakingIn(s, views, st, cancels) == Protocol.Collected(cfg, s, s.results[0])
    {
    }

    /** Taking a result in is the protocol's collection step. */
    lemma CollectStep(was: seq<State>, views: map<nat, Server>, st: Status, cancels: bool)
      requires |was| > 0 && Behaviour(cfg, was) && Last(was).phase == Collecting && |Last(was).results| > 0
      requires var s, res := Last(was), Last(was).results[0];
               ResultFits(s.pool, res) && TakenIn(s.pool, s.status, res, views, st, cancels)
      ensures Behaviour(cfg, was + [AfterTakingIn(Last(was), views, st, cancels)])
    {
      TakenInIsCollected(Last(was), views, st, cancels);
      assert Collect(cfg, Last(was), AfterTakingIn(Last(was), views, st, cancels));
      ExtendScheduler(cfg, was, AfterTakingIn(Last(was), views, st, cancels));
    }

    lemma CollectSteps(was: seq<State>, keep: (map<nat, Server>, Status, bool) -> bool)
      requires |was| > 0 && Behaviour(cfg, was) && Last(was).phase == Collecting && |Last(was).results| > 0
      requires forall views, st, cancels ::
                 keep(views, st, cancels) <==> Behaviour(cfg, was + [AfterTakingIn(Last(was), views, st, cancels)])
      ensures ResultFits(Last(was).pool, Last(was).results[0])
      ensures forall views, st, cancels ::
                TakenIn(Last(was).pool, Last(was).status, Last(was).results[0], views, st, cancels) ==>
                  keep(views, st, cancels)
    {
      ResultInRange(cfg, was, |was| - 1);
      forall views, st, cancels | TakenIn(Last(was).pool, Last(was).status, Last(was).results[0], views, st, cancels)
        ensures keep(views, st, cancels)
      {
        CollectStep(was, views, st, cancels);
      }
    }

    /** What has to be kept while a result is taken in, for that to be a collection step. */
    lemma CollectPlan(was: seq<State>) returns (keep: (map<nat, Server>, Status, bool) -> bool)
      requires |was| > 0 && Behaviour(cfg, was) && Last(was).phase == Collecting && |Last(was).results| > 0
      ensures ResultFits(Last(was).pool, Last(was).results[0])
      ensures forall views, st, cancels ::
                TakenIn(Last(was).pool, Last(was).status, Last(was).results[0], views, st, cancels) ==>
                  keep(views, st, cancels)
      ensures KeepsCollection(was, keep)
    {
      keep := (views: map<nat, Server>, st: Status, c: bool) =>
        Behaviour(cfg, was + [AfterTakingIn(Last(was), views, st, c)]);
      CollectSteps(was, keep);
    }

    ghost predicate KeepsCollection(was: seq<State>, keep: (map<nat, Server>, Status, bool) -> bool)
      requires |was| > 0 && |Last(was).results| > 0
    {
      forall views, st, cancels {:trigger AfterTakingIn(Last(was), views, st, cancels)} ::
        keep(views, st, cancels) ==> Behaviour(cfg, was + [AfterTakingIn(Last(was), views, st, cancels)])
    }

    /** Receives one result and takes it in. The caller only needs to know that what it
        leaves is kept. */
    method TakeFirst(ghost views: map<nat, Server>, ghost st: Status,
        ghost keep: (map<nat, Server>, Status, bool) -> bool)
      returns (cancels: bool)
      requires pool.Valid() && pool.Views() == views && status.View() == st && |results| > 0
          && ResultFits(views, results[0])
      requires forall views', st', c :: TakenIn(views, st, results[0], views', st', c) ==> keep(views', st', c)
      modifies this`results, this`inFlight, this`cancelled, pool, pool.pool.Values, status
      ensures pool.Valid() && pool.dequeueIdx == old(pool.dequeueIdx) && pool.nextSlot == old(pool.nextSlot)
      ensures pool.pool.Values <= old(pool.pool.Values)
      ensures results == old(results[1..]) && inFlight == old(Decremented(inFlight, results[0].srv))
      ensures cancelled == old(if cancels then cancelled + {results[0].srv} else cancelled)
      ensures keep(pool.Views(), status.View(), cancels)
    {
      var res := results[0];
      results := results[1..];
      inFlight := Decremented(inFlight, res.srv);
      cancels := TakeIn(res, views, st);
      assert keep(pool.Views(), status.View(), cancels);
      if cancels { cancelled := cancelled + {res.srv}; }
    }

    method Receive()
      requires Valid() && Now().phase == Collecting && |results| > 0
      modifies this`results, this`inFlight, this`cancelled, this`run, pool, pool.pool.Values, status
      ensures Valid() && old(run) <= run && Now().phase == Collecting
      ensures |results| == old(|results|) - 1 && pool.pool.Values <= old(pool.pool.Values)
    {
      ghost var was := run;
      ghost var keep := CollectPlan(was);
      var cancels := TakeFirst(Last(was).pool, Last(was).status, keep);
      Record(AfterTakingIn(Last(was), pool.Views(), status.View(), cancels));
    }

    /** The collection loop: receives without blocking until the channel is seen empty. */
    method CollectResults()
      requires Valid() && Now().phase == Collecting
      modifies this`clock, this`tokens, this`workers, this`unreleased, this`results, this`inFlight, this`cancelled,
          this`run
      modifies pool, pool.pool.Values, status
      ensures Valid() && old(run) <= run && Now().phase == Polled
      ensures pool.pool.Values <= old(pool.pool.Values)
    {
      OtherGoroutines();
      while |results| > 0
        invariant Valid() && old(run) <= run && Now().phase == Collecting
        invariant pool.pool.Values <= old(pool.pool.Values)
        decreases |workers| + |results|
      {
        Receive();
        OtherGoroutines();
      }
      SeeEmpty();
    }

    method SeeEmpty()
      requires Valid() && Now().phase == Collecting && results == []
      modifies this`run
      ensures Valid() && old(run) <= run && Now().phase == Polled
    {
      ghost var s' := Now().(phase := Polled);
      assert EmptySeen(Now(), s');
      Steps(s');
    }

    /* ---- scheduling new queries ---- */

    /** The scheduler moves on by a step that touches only its own place in the loop. */
    method Steps(ghost s': State)
      requires Valid() && SchedulerMove(cfg, Now(), s') && s' == Now().(phase := s'.phase)
      modifies this`run
      ensures Valid() && run == old(run) + [s']
    {
      ExtendScheduler(cfg, run, s');
      run := run + [s'];
    }

    /** Does the pass skip server i before it asks for a token? */
    predicate SkipsServer(i: nat, srv: ServerContext, pass: nat, now: int)
      reads this`inFlight, srv
    {
      var idle := i !in inFlight || inFlight[i] == 0;
      || (pass == 0 && !idle)
      || (pass == 1 && idle)
      || |srv.pendingChecks| == 0
      || srv.nextQueryAt > now
    }

    ghost function AfterVisit(s: State, i: nat, holds: bool): State
      requires s.phase.Scheduling?
    {
      s.(phase := s.phase.(todo := s.phase.todo - {i}, held := if holds then Some(i) else None),
         tokens := if holds && s.tokens > 0 then s.tokens - 1 else s.tokens)
    }

    lemma VisitStep(was: seq<State>, i: nat, holds: bool)
      requires |was| > 0 && Behaviour(cfg, was)
      requires var s := Last(was);
               && s.phase.Scheduling? && s.phase.held == None && i in s.phase.todo && i in s.pool
               && holds == (!Skips(s, i) && s.tokens > 0)
      ensures Behaviour(cfg, was + [AfterVisit(Last(was), i, holds)])
    {
      assert Visit(Last(was), AfterVisit(Last(was), i, holds), i);
      ExtendScheduler(cfg, was, AfterVisit(Last(was), i, holds));
    }

    /** One server of the map range: skipped, refused for want of a token, or given one. */
    method VisitServer(i: nat, srv: ServerContext, pass: nat, now: int) returns (holds: bool)
      requires Valid() && i in pool.pool && pool.pool[i] == srv
      requires Now().phase.Scheduling? && Now().phase.held == None && i in Now().phase.todo
          && Now().phase.pass == pass && Now().phase.now == now
      modifies this`tokens, this`run
      ensures Valid() && old(run) <= run
      ensures Now().phase == old(Now().phase).(todo := old(Now().phase.todo) - {i},
          held := if holds then Some(i) else None)
    {
      assert Now().pool[i] == srv.View();
      holds := !SkipsServer(i, srv, pass, now) && tokens > 0;
      VisitStep(run, i, holds);
      if holds { tokens := tokens - 1; }
      run := run + [AfterVisit(Now(), i, holds)];
    }

    lemma PlaceStep(was: seq<State>, s': State)
      requires |was| > 0 && Behaviour(cfg, was) && Place(cfg, Last(was), s')
      ensures Behaviour(cfg, was + [s'])
    {
      ExtendScheduler(cfg, was, s');
    }

    ghost predicate FrontFits(srv: Server) {
      |srv.pending| > 0 && srv.pending[0] < |srv.checks| && srv.checks[srv.pending[0]].attemptsLeft <= cfg.maxAttempts
    }

    ghost function FrontJob(i: nat, srv: Server): Job
      requires FrontFits(srv)
    {
      Job(i, srv.pending[0], cfg.maxAttempts - srv.checks[srv.pending[0]].attemptsLeft)
    }

    function OneMore(m: map<nat, nat>, i: nat): map<nat, nat> {
      m[i := (if i in m then m[i] else 0) + 1]
    }

    /** The front check of the server is taken out of its queue, for a new worker. The
        caller only needs to know that what this leaves is kept. */
    method TakeFront(i: nat, srv: ServerContext, now: int, ghost views: map<nat, Server>,
                     ghost keep: (map<nat, Server>, map<nat, nat>, seq<Job>) -> bool)
      requires pool.Valid() && i in pool.pool && pool.pool[i] == srv && pool.Views() == views && FrontFits(views[i])
      requires keep(views[i := FrontTaken(views[i], now + cfg.interval)], OneMore(inFlight, i),
          workers + [FrontJob(i, views[i])])
      modifies srv, this`workers, this`inFlight
      ensures keep(pool.Views(), inFlight, workers)
    {
      ghost var taken := FrontTaken(views[i], now + cfg.interval);
      assert views[i] == srv.View();
      inFlight := OneMore(inFlight, i);
      var checkID := srv.pendingChecks[0];
      srv.pendingChecks := srv.pendingChecks[1..];
      workers := workers + [Job(i, checkID, cfg.maxAttempts - srv.checks[checkID].attemptsLeft)];
      srv.nextQueryAt := now + cfg.interval;
      assert srv.View() == taken && pool.Views() == views[i := taken];
    }

    ghost function AfterDispatch(s: State, p: Phase, at: Dispatch, views: map<nat, Server>, flights: map<nat, nat>,
        ws: seq<Job>): State {
      s.(phase := p, inFlight := flights, pool := views, workers := ws, log := s.log + [at])
    }

    /** Where the loop stands after a dispatch. */
    function Placed(p: Phase): Phase
      requires p.Scheduling?
    {
      p.(held := None, free := p.free - 1)
    }

    lemma DispatchStep(was: seq<State>, i: nat, p: Phase, at: Dispatch,
        keep: (map<nat, Server>, map<nat, nat>, seq<Job>) -> bool)
      requires |was| > 0 && Behaviour(cfg, was)
      requires forall views, flights, ws ::
                 keep(views, flights, ws) <==>
                 Behaviour(cfg, was + [AfterDispatch(Last(was), p, at, views, flights, ws)])
      requires var s := Last(was);
               && s.phase.Scheduling? && s.phase.held == Some(i) && p == Placed(s.phase)
               && i in s.pool && FrontFits(s.pool[i]) && BusyJobs(s) < Cap(cfg)
               && var job := FrontJob(i, s.pool[i]);
                  at == Dispatch(i, job.check, job.attempt, p.now)
      ensures var s := Last(was);
              && keep(s.pool[i := FrontTaken(s.pool[i], p.now + cfg.interval)], OneMore(s.inFlight, i),
                      s.workers + [FrontJob(i, s.pool[i])])
    {
      var s := Last(was);
      PlaceStep(was, Dispatched(cfg, s, i));
      assert Dispatched(cfg, s, i) == AfterDispatch(s, p, at, s.pool[i := FrontTaken(s.pool[i], p.now + cfg.interval)],
          OneMore(s.inFlight, i), s.workers + [FrontJob(i, s.pool[i])]);
    }

    lemma FrontFitsNow(was: seq<State>, i: nat)
      requires |was| > 0 && Behaviour(cfg, was) && i in Last(was).pool && |Last(was).pool[i].pending| > 0
      ensures FrontFits(Last(was).pool[i])
    {
      FrontInRange(cfg, was, |was| - 1, i);
    }

    /** What has to be kept while the front check is taken out, for the dispatch to be a
        step of the protocol. */
    lemma DispatchPlan(was: seq<State>, i: nat, p: Phase)
        returns (at: Dispatch, keep: (map<nat, Server>, map<nat, nat>, seq<Job>) -> bool)
      requires |was| > 0 && Behaviour(cfg, was)
      requires var s := Last(was);
               && s.phase.Scheduling? && s.phase.held == Some(i) && p == Placed(s.phase)
               && i in s.pool && |s.pool[i].pending| > 0 && BusyJobs(s) < Cap(cfg)
      ensures var s := Last(was);
              && FrontFits(s.pool[i])
              && keep(s.pool[i := FrontTaken(s.pool[i], p.now + cfg.interval)], OneMore(s.inFlight, i),
                      s.workers + [FrontJob(i, s.pool[i])])
      ensures KeepsDispatch(was, p, at, keep)
    {
      FrontFitsNow(was, i);
      var job := FrontJob(i, Last(was).pool[i]);
      at := Dispatch(i, job.check, job.attempt, p.now);
      var step := at;
      keep := (views: map<nat, Server>, flights: map<nat, nat>, ws: seq<Job>) =>
        Behaviour(cfg, was + [AfterDispatch(Last(was), p, step, views, flights, ws)]);
      DispatchStep(was, i, p, at, keep);
    }

    ghost predicate KeepsDispatch(was: seq<State>, p: Phase, at: Dispatch,
        keep: (map<nat, Server>, map<nat, nat>, seq<Job>) -> bool)
      requires |was| > 0
    {
      forall views, flights, ws {:trigger AfterDispatch(Last(was), p, at, views, flights, ws)} ::
        keep(views, flights, ws) ==> Behaviour(cfg, was + [AfterDispatch(Last(was), p, at, views, flights, ws)])
    }

    /** Takes the front check out and starts its worker; s' is the protocol state then. */
    method Launch(i: nat, srv: ServerContext, now: int, ghost p: Phase) returns (ghost s': State)
      requires Valid() && i in pool.pool && pool.pool[i] == srv && i in Now().pool && |Now().pool[i].pending| > 0
      requires Now().phase == p && p.Scheduling? && p.held == Some(i) && p.now == now
      requires |workers| + unreleased < maxThreads
      modifies this`workers, this`inFlight, srv
      ensures pool.Valid() && Behaviour(cfg, run + [s']) && Shows(s') && s'.phase == Placed(p)
    {
      ghost var was, views := run, Now().pool;
      ghost var at, keep := DispatchPlan(was, i, Placed(p));
      TakeFront(i, srv, now, views, keep);
      s' := AfterDispatch(Last(was), Placed(p), at, pool.Views(), inFlight, workers);
    }

    /** A job slot was free: the front check of the server goes out with a new worker. */
    method StartWorker(i: nat, srv: ServerContext, now: int, ghost p: Phase)
      requires Valid() && i in pool.pool && pool.pool[i] == srv && i in Now().pool && |Now().pool[i].pending| > 0
      requires Now().phase == p && p.Scheduling? && p.held == Some(i) && p.now == now
      requires |workers| + unreleased < maxThreads
      modifies this`workers, this`inFlight, this`run, srv
      ensures Valid() && old(run) <= run && Now().phase == Placed(p)
    {
      ghost var s' := Launch(i, srv, now, p);
      Record(s');
    }

    /** No job slot was free: the token goes back. */
    method ReturnToken(i: nat)
      requires Valid() && i in Now().pool && |Now().pool[i].pending| > 0
      requires Now().phase.Scheduling? && Now().phase.held == Some(i)
      requires |workers| + unreleased >= maxThreads
      modifies this`tokens, this`run
      ensures Valid() && old(run) <= run
      ensures Now().phase == old(Now().phase).(held := None)
    {
      ghost var s := Now();
      FrontInRange(cfg, run, |run| - 1, i);
      tokens := Apply(cfg.limits, GiveBack, tokens);
      ghost var s' := s.(phase := s.phase.(held := None), tokens := tokens);
      PlaceStep(run, s');
      run := run + [s'];
    }

    /** A token was consumed for server i: dispatch, or give it back if no slot is free. */
    method PlaceQuery(i: nat, srv: ServerContext, now: int, ghost p: Phase) returns (started: bool)
      requires Valid() && i in pool.pool && pool.pool[i] == srv && i in Now().pool && |Now().pool[i].pending| > 0
      requires Now().phase == p && p.Scheduling? && p.held == Some(i) && p.now == now
      modifies this`workers, this`inFlight, this`tokens, this`run, srv
      ensures Valid() && old(run) <= run
      ensures Now().phase == if started then Placed(p) else p.(held := None)
    {
      started := |workers| + unreleased < maxThreads;
      if started {
        StartWorker(i, srv, now, p);
      } else {
        ReturnToken(i);
      }
    }

    ghost function Visited(p: Phase, i: nat, held: Option<nat>, taken: int): Phase
      requires p.Scheduling?
    {
      p.(todo := p.todo - {i}, held := held, free := p.free - taken)
    }

    /** The body of the map range for server i. */
    method TryServer(i: nat, pass: nat, now: int, ghost p: Phase) returns (started: bool)
      requires Valid() && i in pool.pool
      requires Now().phase == p && p.Scheduling? && p.held == None && i in p.todo && p.pass == pass && p.now == now
      modifies this`clock, this`tokens, this`workers, this`unreleased, this`results, this`inFlight, this`run,
          pool.pool[i]
      ensures Valid() && old(run) <= run
      ensures Now().phase == Visited(p, i, None, if started then 1 else 0)
    {
      started := false;
      var srv := pool.pool[i];
      var holds := VisitServer(i, srv, pass, now);
      if holds {
        assert Now().phase == Visited(p, i, Some(i), 0);
        OtherGoroutines();
        PendingWhenHeld(cfg, run, |run| - 1, i);
        started := PlaceQuery(i, srv, now, Visited(p, i, Some(i), 0));
      }
    }

    /** The map range yields server i, after whatever the others have done meanwhile. */
    method NextServer(i: nat, pass: nat, now: int, ghost p: Phase) returns (started: bool)
      requires Valid() && i in pool.pool
      requires Now().phase == p && p.Scheduling? && p.held == None && i in p.todo && p.pass == pass && p.now == now
      modifies this`clock, this`tokens, this`workers, this`unreleased, this`results, this`inFlight, this`run,
          pool.pool[i]
      ensures Valid() && old(run) <= run
      ensures Now().phase == Visited(p, i, None, if started then 1 else 0)
    {
      OtherGoroutines();
      started := TryServer(i, pass, now, p);
    }

    /** The map range yields some server that it has not yielded yet. */
    method YieldOne(todo: set<nat>, pass: nat, now: int, free: int, ghost canGrow: bool)
        returns (left: int, rest: set<nat>)
      requires Valid() && todo != {} && todo <= pool.pool.Keys
      requires Now().phase == Scheduling(pass, todo, None, canGrow, free, now)
      modifies this`clock, this`tokens, this`workers, this`unreleased, this`results, this`inFlight, this`run,
          pool.pool.Values
      ensures Valid() && old(run) <= run && rest < todo
      ensures Now().phase == Scheduling(pass, rest, None, canGrow, left, now)
    {
      ghost var some := Member(todo);
      var i :| i in todo;
      var started := NextServer(i, pass, now, Scheduling(pass, todo, None, canGrow, free, now));
      rest := todo - {i};
      left := if started then free - 1 else free;
    }

    /** One pass over the pool, in whatever order the map range yields it. */
    method Pass(pass: nat, now: int, free: int, ghost canGrow: bool, ghost ids: set<nat>) returns (left: int)
      requires Valid() && ids == pool.pool.Keys && Now().phase == Scheduling(pass, ids, None, canGrow, free, now)
      modifies this`clock, this`tokens, this`workers, this`unreleased, this`results, this`inFlight, this`run,
          pool.pool.Values
      ensures Valid() && old(run) <= run && Now().phase == Scheduling(pass, {}, None, canGrow, left, now)
    {
      left := free;
      var todo := pool.pool.Keys;
      while todo != {}
        invariant Valid() && old(run) <= run && todo <= pool.pool.Keys
        invariant Now().phase == Scheduling(pass, todo, None, canGrow, left, now)
        decreases todo
      {
        left, todo := YieldOne(todo, pass, now, left, canGrow);
      }
    }

    lemma BeginStep(s: State)
      requires s.phase == Polled
      ensures var s' := s.(phase := EnterPass(0, s.pool, Protocol.CanGrow(cfg, s), Cap(cfg) - BusyJobs(s), s.clock));
              SchedulerMove(cfg, s, s')
    {
      var s' := s.(phase := EnterPass(0, s.pool, Protocol.CanGrow(cfg, s), Cap(cfg) - BusyJobs(s), s.clock));
      assert BeginPasses(cfg, s, s');
    }

    lemma EndStep(s: State)
      requires s.phase.Scheduling? && s.phase.held == None && s.phase.todo == {}
      ensures var s' := s.(phase := EnterPass(s.phase.pass + 1, s.pool, s.phase.canGrow, s.phase.free, s.phase.now));
              SchedulerMove(cfg, s, s')
    {
      var s' := s.(phase := EnterPass(s.phase.pass + 1, s.pool, s.phase.canGrow, s.phase.free, s.phase.now));
      assert EndPass(s, s');
    }

    /** The opening of the scheduling phase: the clock, the pool and the job slots are read. */
    method Begin() returns (now: int, canGrow: bool, free: int)
      requires Valid() && Now().phase == Polled
      modifies this`run
      ensures Valid() && old(run) <= run && Now().phase == EnterPass(0, Now().pool, canGrow, free, now)
    {
      now := clock;
      pool.Questions(cfg, Now());
      canGrow := pool.Growable();
      free := maxThreads - (|workers| + unreleased);
      BeginStep(Now());
      Steps(Now().(phase := EnterPass(0, Now().pool, canGrow, free, now)));
    }

    method ClosePass(ghost p: Phase)
      requires Valid() && Now().phase == p && p.Scheduling? && p.held == None && p.todo == {}
      modifies this`run
      ensures Valid() && old(run) <= run && Now().phase == EnterPass(p.pass + 1, Now().pool, p.canGrow, p.free, p.now)
    {
      EndStep(Now());
      Steps(Now().(phase := EnterPass(p.pass + 1, Now().pool, p.canGrow, p.free, p.now)));
    }

    method PassAndNext(pass: nat, now: int, free: int, ghost canGrow: bool) returns (left: int)
      requires Valid() && Now().phase == Scheduling(pass, Now().pool.Keys, None, canGrow, free, now)
      modifies this`clock, this`tokens, this`workers, this`unreleased, this`results, this`inFlight, this`run,
          pool.pool.Values
      ensures Valid() && old(run) <= run && Now().phase == EnterPass(pass + 1, Now().pool, canGrow, left, now)
    {
      left := PassOverPool(pass, now, free, canGrow);
      ClosePass(Scheduling(pass, {}, None, canGrow, left, now));
    }

    method PassOverPool(pass: nat, now: int, free: int, ghost canGrow: bool) returns (left: int)
      requires Valid() && Now().phase == Scheduling(pass, Now().pool.Keys, None, canGrow, free, now)
      modifies this`clock, this`tokens, this`workers, this`unreleased, this`results, this`inFlight, this`run,
          pool.pool.Values
      ensures Valid() && old(run) <= run && Now().phase == Scheduling(pass, {}, None, canGrow, left, now)
    {
      pool.Questions(cfg, Now());
      left := Pass(pass, now, free, canGrow, Now().pool.Keys);
    }

    /** First the idle servers, then, if the pool cannot grow, the busy ones. */
    method Passes() returns (canGrow: bool, free: int)
      requires Valid() && Now().phase == Polled
      modifies this`clock, this`tokens, this`workers, this`unreleased, this`results, this`inFlight, this`run,
          pool.pool.Values
      ensures Valid() && old(run) <= run && Now().phase == PassesOver(canGrow, free)
    {
      var now, pass := 0, 0;
      now, canGrow, free := Begin();
      while pass < 2 && free > 0 && !(pass == 1 && canGrow)
        invariant Valid() && old(run) <= run && Now().phase == EnterPass(pass, Now().pool, canGrow, free, now)
        decreases 2 - pass
      {
        free := PassAndNext(pass, now, free, canGrow);
        pass := pass + 1;
      }
    }

    /* ---- the end of a round ---- */

    method TestDrainedNow(ghost canGrow: bool, ghost free: int) returns (drained: bool)
      requires Valid() && Now().phase == PassesOver(canGrow, free)
      modifies this`run
      ensures Valid() && old(run) <= run && Now().phase == if drained then Waiting else Loading(canGrow, free)
    {
      pool.Questions(cfg, Now());
      drained := pool.Drained();
      ghost var s' := Now().(phase := if drained then Waiting else Loading(canGrow, free));
      assert TestDrained(cfg, Now(), s');
      Steps(s');
    }

    lemma LoadStep(was: seq<State>)
      requires |was| > 0 && Behaviour(cfg, was) && Last(was).phase.Loading?
      ensures var s := Last(was);
              var t := LoadedN(cfg, s, Budget(s));
              && t == s.(pool := t.pool, dequeueIdx := t.dequeueIdx, nextSlot := t.nextSlot)
              && Behaviour(cfg, was + [t.(phase := Collecting)])
    {
      var s := Last(was);
      var s' := LoadedN(cfg, s, Budget(s)).(phase := Collecting);
      assert Load(cfg, s, s');
      LoadNSame(cfg, s, Budget(s));
      ExtendScheduler(cfg, was, s');
    }

    /** As many servers as there are both tokens and free slots. */
    method LoadBudget(canGrow: bool, free: int, ghost s: State)
      requires pool.Valid() && pool.Shows(cfg, s) && s.phase == Loading(canGrow, free) && s.tokens == tokens
      modifies pool
      ensures pool.Valid() && pool.Shows(cfg, LoadedN(cfg, s, Budget(s)))
      ensures pool.Grown(old(pool.pool))
    {
      var toLoad := 0;
      if canGrow && free != 0 {
        toLoad := if tokens <= free then tokens else free;
      }
      if toLoad > 0 {
        var growth := pool.LoadN(toLoad, cfg, s);
      }
    }

    method LoadMore(canGrow: bool, free: int)
      requires Valid() && Now().phase == Loading(canGrow, free)
      modifies this`run, pool
      ensures Valid() && old(run) <= run && Now().phase == Collecting && Turns(run) == old(Turns(run)) + 1
      ensures pool.Grown(old(pool.pool))
    {
      ghost var s := Now();
      TurnEnds(run, LoadedN(cfg, s, Budget(s)).(phase := Collecting));
      LoadStep(run);
      LoadBudget(canGrow, free, s);
      Record(LoadedN(cfg, s, Budget(s)).(phase := Collecting));
    }

    /** The passes, with whatever the others do before and after. */
    method Schedule() returns (canGrow: bool, free: int)
      requires Valid() && Now().phase == Polled
      modifies this`clock, this`tokens, this`workers, this`unreleased, this`results, this`inFlight, this`run,
          pool.pool.Values
      ensures Valid() && old(run) <= run && Now().phase == PassesOver(canGrow, free)
    {
      OtherGoroutines();
      canGrow, free := Passes();
      OtherGoroutines();
    }

    /** The termination test and, if servers remain, the loading of more. */
    method CloseTurn(canGrow: bool, free: int) returns (drained: bool)
      requires Valid() && Now().phase == PassesOver(canGrow, free)
      modifies this`clock, this`tokens, this`workers, this`unreleased, this`results, this`run, pool
      ensures Valid() && old(run) <= run && Now().phase == if drained then Waiting else Collecting
      ensures !drained ==> Turns(run) > old(Turns(run))
      ensures pool.Grown(old(pool.pool))
    {
      drained := TestDrainedNow(canGrow, free);
      if !drained {
        OtherGoroutines();
        TurnsGrow(old(run), run);
        LoadMore(canGrow, free);
      }
    }

    /** One turn of the loop. */
    method Round() returns (drained: bool)
      requires Valid() && Now().phase == Collecting
      modifies this`clock, this`tokens, this`workers, this`unreleased, this`results, this`inFlight, this`cancelled,
          this`run
      modifies pool, pool.pool.Values, status
      ensures Valid() && old(run) <= run && Now().phase == if drained then Waiting else Collecting
      ensures !drained ==> Turns(run) > old(Turns(run))
      ensures forall srv :: srv in pool.pool.Values ==> srv in old(pool.pool.Values) || fresh(srv)
    {
      CollectResults();
      var canGrow, free := Schedule();
      TurnsGrow(old(run), run);
      drained := CloseTurn(canGrow, free);
    }

    /** The final Wait: nobody reads the channel any more, yet every worker gets to send
        and to release its slot, and with the last of them the Wait returns. */
    method Wait()
      requires Valid() && Now().phase == Waiting
      modifies this`workers, this`unreleased, this`results, this`run
      ensures Valid() && old(run) <= run && Ended(Now())
    {
      while |workers| > 0 || unreleased > 0
        invariant Valid() && old(run) <= run && Now().phase == Waiting
        decreases 2 * |workers| + unreleased
      {
        var sends: bool := *;
        if |workers| > 0 && (sends || unreleased == 0) {
          RoomToSend(cfg, run, |run| - 1);
          var k: int, reply: Reply := *, *;
          WorkerSends(if 0 <= k < |workers| then k else 0, reply);
        } else {
          WorkerReleases();
        }
      }
    }
  }

  /** The loop and the Wait, given up after maxRounds turns. */
  method ScheduleChecks(cfg: Config, clock: int, maxRounds: nat)
      returns (ended: bool, figures: Status, ghost run: seq<State>)
    requires GoodConfig(cfg) && clock >= 0
    ensures Behaviour(cfg, run) && figures == Last(run).status
    ensures if ended then Ended(Last(run)) else Turns(run) >= maxRounds
  {
    var sched := new QueryScheduler(cfg, clock);
    ended := false;
    var rounds := 0;
    while !ended && rounds < maxRounds
      invariant sched.Valid() && sched.cfg == cfg && sched.Now().phase == (if ended then Waiting else Collecting)
      invariant !ended ==> Turns(sched.run) >= rounds
      invariant fresh(sched) && fresh(sched.pool) && fresh(sched.status)
      invariant forall srv :: srv in sched.pool.pool.Values ==> fresh(srv)
      decreases !ended, maxRounds - rounds
    {
      ended := sched.Round();
      rounds := rounds + 1;
    }
    if ended {
      sched.Wait();
    }
    run := sched.run;
    figures := sched.status.View();
  }

  /** DNSanitize, given up after maxRounds turns of the loop. If it gets to the end, then
      whatever the network answered, however the goroutines were interleaved and in
      whatever order the pool was walked, the output and the counters are those of a plain
      sequential run, and every worker has ended. If it is given up, it can still be brought
      to that end, and only so many of its turns had anything they could have done. */
  method DNSanitize(cfg: Config, clock: int, maxRounds: nat)
      returns (ended: bool, figures: Status, ghost run: seq<State>)
    requires GoodConfig(cfg) && clock >= 0
    ensures ended ==> SequentialFigures(cfg, figures)
    ensures Behaviour(cfg, run) && figures == Last(run).status
    ensures forall k :: 0 <= k < |run| ==> |run[k].workers| + run[k].unreleased <= cfg.maxThreads
    ensures ended ==> Ended(Last(run))
    ensures !ended ==> Turns(run) >= maxRounds && exists more: seq<State> :: EndsWith(cfg, run, more)
    ensures ReadyTurns(cfg, run, |run| - 1) <= MostQueries(cfg) + NumServers(cfg)
  {
    ended, figures, run := ScheduleChecks(cfg, clock, maxRounds);
    WhatARunShows(cfg, run);
  }

  lemma WhatARunShows(cfg: Config, run: seq<State>)
    requires Behaviour(cfg, run)
    ensures forall k :: 0 <= k < |run| ==> |run[k].workers| + run[k].unreleased <= cfg.maxThreads
    ensures Ended(Last(run)) ==> SequentialFigures(cfg, Last(run).status)
    ensures exists more: seq<State> :: EndsWith(cfg, run, more)
    ensures ReadyTurns(cfg, run, |run| - 1) <= MostQueries(cfg) + NumServers(cfg)
  {
    forall k | 0 <= k < |run| ensures |run[k].workers| + run[k].unreleased <= cfg.maxThreads {
      TurnRules.JobLimit(cfg, run, k);
    }
    ReadyTurnsBounded(cfg, run, |run| - 1);
    CanEnd(cfg, run);
    if Ended(Last(run)) {
      FinalFigures(cfg, run, |run| - 1);
    }
  }
}
