/** Nothing blocks, every round that can make progress does, and the work is finite. */
module Liveness {
  import opened Answers
  import opened ServerState
  import opened Bucket
  import opened Sets
  import opened Sums
  import opened Protocol
  import opened Checks
  import opened Invariant
  import opened Safety
  import opened Budgets

  /* ---- the final Wait ------------------------------------------------------------- */

  function WaitSteps(s: State): nat {
    2 * |s.workers| + s.unreleased
  }

  ghost predicate CanSend(cfg: Config, s: State, k: nat) {
    exists reply: Reply, s': State :: Send(cfg, s, s', k, reply)
  }

  lemma SendEnabled(cfg: Config, s: State, k: nat)
    requires k < |s.workers| && |s.results| < Cap(cfg)
    ensures CanSend(cfg, s, k)
  {
    var job := s.workers[k];
    var reply := cfg.oracle(job.srv, job.check, job.attempt);
    var s' := s.(workers := Drop(s.workers, k), unreleased := s.unreleased + 1,
                 results := s.results + [WorkerResult(job.srv, job.check, reply)]);
    assert Send(cfg, s, s', k, reply);
  }

  /** Nobody reads Results any more, yet no worker blocks: every one of them finds room
      in the channel, and every one that has sent can release its slot. */
  lemma WaitNeverBlocks(cfg: Config, run: seq<State>, i: nat)
    requires Behaviour(cfg, run) && i < |run| && run[i].phase == Waiting
    ensures forall k: nat :: k < |run[i].workers| ==> CanSend(cfg, run[i], k)
    ensures run[i].unreleased > 0 ==> exists s': State :: Release(run[i], s')
  {
    Always(cfg, run, i);
    var s := run[i];
    assert s.pool == map[];
    forall k: nat | k < |s.workers| ensures CanSend(cfg, s, k) {
      SendEnabled(cfg, s, k);
    }
    if s.unreleased > 0 {
      assert Release(s, s.(unreleased := s.unreleased - 1));
    }
  }

  lemma RoomToSend(cfg: Config, run: seq<State>, i: nat)
    requires Behaviour(cfg, run) && i < |run| && run[i].phase == Waiting && |run[i].workers| > 0
    ensures |run[i].results| < Cap(cfg)
  {
    WaitNeverBlocks(cfg, run, i);
    assert CanSend(cfg, run[i], 0);
  }

  /** After the loop the scheduler moves no more; each worker move brings Wait one step
      nearer, no other move delays it, and it returns when the count is down to zero. */
  lemma WaitCountsDown(cfg: Config, s: State, s': State)
    requires s.phase == Waiting && Next(cfg, s, s')
    ensures s'.phase == Waiting
    ensures WaitSteps(s') == if WorkerMove(cfg, s, s') then WaitSteps(s) - 1 else WaitSteps(s)
    ensures Ended(s') <==> WaitSteps(s') == 0
  {
    if WorkerMove(cfg, s, s') {
      if !Release(s, s') {
        var k: nat, reply: Reply :| Send(cfg, s, s', k, reply);
      }
    }
  }

  /** The number of worker moves between two points of a run. */
  ghost function WorkerMoves(cfg: Config, run: seq<State>, i: nat, j: nat): nat
    requires i <= j < |run|
    decreases j
  {
    if i == j then 0
    else WorkerMoves(cfg, run, i, j - 1) + (if WorkerMove(cfg, run[j - 1], run[j]) then 1 else 0)
  }

  /** So the Wait has returned exactly when the workers have made as many moves as were
      owed when the loop was left: two for each that had not sent, one for each that had. */
  lemma {:induction false} WaitReturns(cfg: Config, run: seq<State>, i: nat, j: nat)
    requires IsRun(cfg, run) && i <= j < |run| && run[i].phase == Waiting
    ensures run[j].phase == Waiting
    ensures WorkerMoves(cfg, run, i, j) + WaitSteps(run[j]) == WaitSteps(run[i])
    ensures Ended(run[j]) <==> WorkerMoves(cfg, run, i, j) == WaitSteps(run[i])
    decreases j
  {
    if i < j {
      WaitReturns(cfg, run, i, j - 1);
      assert StepInto(cfg, run, j);
      WaitCountsDown(cfg, run[j - 1], run[j]);
    } else {
      EndedIsZero(run[i]);
    }
  }

  lemma EndedIsZero(s: State)
    requires s.phase == Waiting
    ensures Ended(s) <==> WaitSteps(s) == 0
  {
  }

  /* ---- the scheduler never blocks -------------------------------------------------- */

  lemma CollectEnabled(cfg: Config, s: State)
    requires ServersOk(cfg, s) && JobsOk(cfg, s) && s.phase == Collecting && |s.results| > 0
    ensures exists s': State :: SchedulerMove(cfg, s, s')
  {
    var res := s.results[0];
    assert ResultOk(cfg, s, res);
    var s' := Protocol.Collected(cfg, s, res);
    assert Collect(cfg, s, s');
    assert SchedulerMove(cfg, s, s');
  }

  lemma PlaceEnabled(cfg: Config, s: State)
    requires ServersOk(cfg, s) && PhaseOk(s) && s.phase.Scheduling? && s.phase.held.Some?
    ensures exists s': State :: SchedulerMove(cfg, s, s')
  {
    var i := s.phase.held.value;
    assert ServerOk(cfg, i, s.pool[i], OutOf(s, i), LoggedOf(s, i));
    var s' := if BusyJobs(s) < Cap(cfg) then Dispatched(cfg, s, i)
              else s.(phase := s.phase.(held := None), tokens := Apply(cfg.limits, GiveBack, s.tokens));
    assert Place(cfg, s, s');
    assert SchedulerMove(cfg, s, s');
  }

  lemma VisitEnabled(cfg: Config, s: State)
    requires PhaseOk(s) && s.phase.Scheduling? && s.phase.held == None && s.phase.todo != {}
    ensures exists s': State :: SchedulerMove(cfg, s, s')
  {
    var i := Member(s.phase.todo);
    assert i in s.pool.Keys;
    var phase' := s.phase.(todo := s.phase.todo - {i});
    var s' := if Skips(s, i) || s.tokens == 0 then s.(phase := phase')
              else s.(phase := phase'.(held := Some(i)), tokens := s.tokens - 1);
    assert Visit(s, s', i);
    assert SchedulerMove(cfg, s, s');
  }

  lemma SimpleStepEnabled(cfg: Config, s: State)
    requires s.phase != Waiting && (s.phase == Collecting ==> s.results == [])
    requires s.phase.Scheduling? ==> s.phase.held == None && s.phase.todo == {}
    ensures exists s': State :: SchedulerMove(cfg, s, s')
  {
    var s' :=
      if s.phase == Collecting then s.(phase := Polled)
      else if s.phase == Polled then s.(phase := EnterPass(0, s.pool, CanGrow(cfg, s), Cap(cfg) - BusyJobs(s), s.clock))
      else if s.phase.Scheduling? then
        s.(phase := EnterPass(s.phase.pass + 1, s.pool, s.phase.canGrow, s.phase.free, s.phase.now))
      else if s.phase.PassesOver? then
        s.(phase := if IsDrained(cfg, s) then Waiting else Loading(s.phase.canGrow, s.phase.free))
      else LoadedN(cfg, s, Budget(s)).(phase := Collecting);
    assert EmptySeen(s, s') || BeginPasses(cfg, s, s') || EndPass(s, s') || TestDrained(cfg, s, s') || Load(cfg, s, s');
    assert SchedulerMove(cfg, s, s');
  }

  /** Until it leaves its loop the scheduler always has a next step of its own, whatever
      the workers do: no receive or send of its can block. */
  lemma SchedulerNeverBlocks(cfg: Config, run: seq<State>, i: nat)
    requires Behaviour(cfg, run) && i < |run| && run[i].phase != Waiting
    ensures exists s': State :: SchedulerMove(cfg, run[i], s')
  {
    Always(cfg, run, i);
    var s := run[i];
    if s.phase == Collecting && |s.results| > 0 {
      CollectEnabled(cfg, s);
    } else if s.phase.Scheduling? && s.phase.held.Some? {
      PlaceEnabled(cfg, s);
    } else if s.phase.Scheduling? && s.phase.todo != {} {
      VisitEnabled(cfg, s);
    } else {
      SimpleStepEnabled(cfg, s);
    }
  }

  /* ---- the work is finite ------------------------------------------------------------ */

  /** What is left to do: dispatches, sends, releases, collections, loads. */
  function Work(cfg: Config, s: State): int {
    4 * (MostQueries(cfg) - |s.log|) + 3 * |s.workers| + s.unreleased + |s.results| + NumPending(cfg, s)
  }

  /** The step dispatched, sent, released, collected or loaded something. */
  ghost predicate Works(s: State, s': State) {
    !( && s'.workers == s.workers && s'.unreleased == s.unreleased && s'.results == s.results
       && s'.log == s.log && s'.dequeueIdx == s.dequeueIdx)
  }

  lemma {:induction false} LoadWork(cfg: Config, s: State, n: nat)
    ensures var s' := LoadedN(cfg, s, n);
            && s'.workers == s.workers && s'.unreleased == s.unreleased && s'.results == s.results && s'.log == s.log
            && s'.dequeueIdx >= s.dequeueIdx
    decreases n
  {
    if n > 0 && CanGrow(cfg, s) {
      LoadWork(cfg, LoadedOne(cfg, s), n - 1);
    }
  }

  lemma OtherWork(cfg: Config, s: State, s': State)
    requires OtherMove(cfg, s, s')
    ensures Work(cfg, s') <= Work(cfg, s) && (Works(s, s') ==> Work(cfg, s') < Work(cfg, s))
  {
    if k: nat, reply: Reply :| Send(cfg, s, s', k, reply) {
    } else if Release(s, s') {
    } else if !RefillTick(cfg, s, s') {
      var time: int :| ClockTick(s, s', time);
    }
  }

  lemma SchedulerWork(cfg: Config, s: State, s': State)
    requires SchedulerMove(cfg, s, s')
    ensures Work(cfg, s') <= Work(cfg, s) && (Works(s, s') ==> Work(cfg, s') < Work(cfg, s))
  {
    if Load(cfg, s, s') {
      LoadWork(cfg, s, Budget(s));
    } else if i: nat :| Visit(s, s', i) {
    }
  }

  /** The number of working steps up to some point of a run. */
  ghost function WorkSteps(run: seq<State>, j: nat): nat
    requires j < |run|
  {
    if j == 0 then 0 else WorkSteps(run, j - 1) + (if Works(run[j - 1], run[j]) then 1 else 0)
  }

  lemma WorkOfStep(cfg: Config, s: State, s': State)
    requires Next(cfg, s, s')
    ensures Work(cfg, s') <= Work(cfg, s) && (Works(s, s') ==> Work(cfg, s') < Work(cfg, s))
  {
    if OtherMove(cfg, s, s') { OtherWork(cfg, s, s'); } else { SchedulerWork(cfg, s, s'); }
  }

  lemma {:induction false} WorkGoesDown(cfg: Config, run: seq<State>, j: nat)
    requires IsRun(cfg, run) && j < |run|
    ensures WorkSteps(run, j) + Work(cfg, run[j]) <= Work(cfg, run[0])
  {
    if j > 0 {
      WorkGoesDown(cfg, run, j - 1);
      assert StepInto(cfg, run, j);
      WorkOfStep(cfg, run[j - 1], run[j]);
    }
  }

  /** In any run, however long, at most 4 * servers * checks * maxAttempts + servers steps
      dispatch, send, release, collect or load anything. */
  lemma WorkIsFinite(cfg: Config, run: seq<State>, j: nat)
    requires Behaviour(cfg, run) && j < |run|
    ensures WorkSteps(run, j) <= 4 * MostQueries(cfg) + NumServers(cfg)
  {
    WorkGoesDown(cfg, run, j);
    QueryBound(cfg, run, j);
    Always(cfg, run, j);
  }

  /* ---- every round that can make progress does ------------------------------------------ */

  ghost predicate NothingOut(s: State) {
    s.workers == [] && s.unreleased == 0 && s.results == []
  }

  /** Undrained, nothing outstanding, a token there, every server's time come. */
  ghost predicate ReadyToGo(cfg: Config, s: State) {
    && s.phase == Collecting && NothingOut(s) && !IsDrained(cfg, s) && s.tokens >= 1
    && forall i :: i in s.pool ==> s.pool[i].nextQueryAt <= s.clock
  }

  ghost predicate Advanced(s0: State, s: State) {
    |s.log| > |s0.log| || s.dequeueIdx > s0.dequeueIdx
  }

  /** How far a round has come that started at s0 and has not yet done anything. */
  ghost predicate Stage(cfg: Config, s0: State, s: State) {
    && NothingOut(s) && s.pool == s0.pool && s.dequeueIdx == s0.dequeueIdx && s.clock >= s0.clock
    && !IsDrained(cfg, s)
    && (s.tokens >= 1 || (s.phase.Scheduling? && s.phase.held.Some?))
    && (forall i :: i in s.pool ==> s.pool[i].nextQueryAt <= s0.clock)
    && match s.phase
       case Collecting => true
       case Polled => true
       case Scheduling(pass, todo, held, canGrow, free, now) =>
         && free == Cap(cfg) && canGrow == CanGrow(cfg, s) && now >= s0.clock && todo <= s.pool.Keys
         && (s.pool != map[] ==> pass == 0 && (held == None ==> todo == s.pool.Keys))
         && (held.Some? ==> held.value in s.pool)
       case PassesOver(canGrow, free) => s.pool == map[] && free == Cap(cfg) && canGrow == CanGrow(cfg, s)
       case Loading(canGrow, free) => s.pool == map[] && free == Cap(cfg) && canGrow == CanGrow(cfg, s)
       case Waiting => false
  }

  ghost predicate StageOrMore(cfg: Config, s0: State, s: State) {
    Advanced(s0, s) || Stage(cfg, s0, s)
  }

  lemma CapPositive(cfg: Config)
    requires GoodConfig(cfg)
    ensures Cap(cfg) >= 1
  {
    assert NumServers(cfg) * NumChecks(cfg) >= 1;
  }

  /** With nothing out, every loaded server is idle and has a check pending. */
  lemma IdleServers(cfg: Config, s: State, i: nat)
    requires ServersOk(cfg, s) && InFlightOk(cfg, s) && NothingOut(s) && i in s.pool
    ensures InFlight(s, i) == 0 && |s.pool[i].pending| > 0
  {
    SumZero(NumChecks(cfg), OutOf(s, i));
    BooksOfServer(cfg, s, i);
  }

  lemma AdvancedStays(cfg: Config, s0: State, s: State, s': State)
    requires Next(cfg, s, s') && Advanced(s0, s)
    ensures Advanced(s0, s')
  {
    if Load(cfg, s, s') {
      LoadWork(cfg, s, Budget(s));
    }
  }

  lemma StageOther(cfg: Config, s0: State, s: State, s': State)
    requires GoodConfig(cfg) && Stage(cfg, s0, s) && OtherMove(cfg, s, s')
    ensures Stage(cfg, s0, s')
  {
  }

  lemma StageVisit(cfg: Config, s0: State, s: State, s': State, i: nat)
    requires ServersOk(cfg, s) && InFlightOk(cfg, s) && Stage(cfg, s0, s) && Visit(s, s', i)
    ensures Stage(cfg, s0, s')
  {
    IdleServers(cfg, s, i);
    IdleVisit(cfg, s0, s, s', i);
  }

  /** The first server of the idle pass is not skipped, so the token goes to it. */
  lemma IdleVisit(cfg: Config, s0: State, s: State, s': State, i: nat)
    requires Stage(cfg, s0, s) && Visit(s, s', i) && InFlight(s, i) == 0 && |s.pool[i].pending| > 0
    ensures Stage(cfg, s0, s')
  {
    assert s.pool != map[];
    assert !Skips(s, i);
  }

  lemma StagePlace(cfg: Config, s0: State, s: State, s': State)
    requires GoodConfig(cfg) && Stage(cfg, s0, s) && Place(cfg, s, s') && |s.log| >= |s0.log|
    ensures Advanced(s0, s')
  {
    CapPositive(cfg);
  }

  lemma StageLoad(cfg: Config, s0: State, s: State, s': State)
    requires GoodConfig(cfg) && PoolOk(cfg, s) && Stage(cfg, s0, s) && Load(cfg, s, s')
    ensures Advanced(s0, s')
  {
    CapPositive(cfg);
    EmptyPool(s);
    LoadWork(cfg, LoadedOne(cfg, s), Budget(s) - 1);
  }

  lemma StageOthers(cfg: Config, s0: State, s: State, s': State)
    requires GoodConfig(cfg) && Stage(cfg, s0, s)
    requires Collect(cfg, s, s') || EmptySeen(s, s') || BeginPasses(cfg, s, s') || EndPass(s, s')
        || TestDrained(cfg, s, s')
    ensures Stage(cfg, s0, s')
  {
    CapPositive(cfg);
    EmptyPool(s);
  }

  lemma EmptyPool(s: State)
    ensures s.pool.Keys == {} <==> s.pool == map[]
    ensures |s.pool| == 0 <==> s.pool == map[]
  {
  }

  lemma StageStep(cfg: Config, s0: State, s: State, s': State)
    requires GoodConfig(cfg) && Inv(cfg, s) && Next(cfg, s, s') && |s.log| >= |s0.log| && StageOrMore(cfg, s0, s)
    ensures StageOrMore(cfg, s0, s')
  {
    if Advanced(s0, s) {
      AdvancedStays(cfg, s0, s, s');
    } else if OtherMove(cfg, s, s') {
      StageOther(cfg, s0, s, s');
    } else if Place(cfg, s, s') {
      StagePlace(cfg, s0, s, s');
    } else if Load(cfg, s, s') {
      StageLoad(cfg, s0, s, s');
    } else if i: nat :| Visit(s, s', i) {
      StageVisit(cfg, s0, s, s', i);
    } else {
      StageOthers(cfg, s0, s, s');
    }
  }

  lemma LogGrows(cfg: Config, s: State, s': State)
    requires Next(cfg, s, s')
    ensures |s'.log| >= |s.log|
  {
    if Load(cfg, s, s') {
      LoadWork(cfg, s, Budget(s));
    }
  }

  ghost predicate Underway(cfg: Config, s0: State, s: State) {
    Inv(cfg, s) && |s.log| >= |s0.log| && StageOrMore(cfg, s0, s)
  }

  /** The step that ends a round: LoadN is called, or the loop is left. */
  ghost predicate RoundEnd(cfg: Config, s: State, s': State) {
    Load(cfg, s, s') || s'.phase == Waiting
  }

  lemma RoundEndAdvances(cfg: Config, s0: State, s: State, s': State)
    requires GoodConfig(cfg) && PoolOk(cfg, s) && StageOrMore(cfg, s0, s) && StageOrMore(cfg, s0, s')
    requires RoundEnd(cfg, s, s')
    ensures Advanced(s0, s')
  {
    if Load(cfg, s, s') {
      if Advanced(s0, s) {
        LoadWork(cfg, s, Budget(s));
      } else {
        StageLoad(cfg, s0, s, s');
      }
    }
  }

  lemma UnderwayStart(cfg: Config, s0: State)
    requires Inv(cfg, s0) && ReadyToGo(cfg, s0)
    ensures Underway(cfg, s0, s0)
  {
    assert Stage(cfg, s0, s0);
  }

  lemma UnderwayStep(cfg: Config, s0: State, s: State, s': State)
    requires GoodConfig(cfg) && Underway(cfg, s0, s) && Next(cfg, s, s')
    ensures Underway(cfg, s0, s')
  {
    StepKeepsInv(cfg, s, s');
    LogGrows(cfg, s, s');
    StageStep(cfg, s0, s, s');
  }

  lemma UnderwayKept(cfg: Config, s0: State, keep: State -> bool)
    requires GoodConfig(cfg)
    requires forall s: State :: keep(s) <==> Underway(cfg, s0, s)
    ensures forall s: State, s': State :: keep(s) && Next(cfg, s, s') ==> keep(s')
    ensures forall s: State, s': State :: keep(s) && keep(s') && RoundEnd(cfg, s, s') ==> Advanced(s0, s')
  {
    forall s: State, s': State | keep(s) && Next(cfg, s, s') ensures keep(s') {
      UnderwayStep(cfg, s0, s, s');
    }
    forall s: State, s': State | keep(s) && keep(s') && RoundEnd(cfg, s, s') ensures Advanced(s0, s') {
      RoundEndAdvances(cfg, s0, s, s');
    }
  }

  lemma ProgressOf(cfg: Config, run: seq<State>, i: nat, j: nat, keep: State -> bool)
    requires IsRun(cfg, run) && i < j < |run| && keep(run[i]) && RoundEnd(cfg, run[j - 1], run[j])
    requires forall s: State, s': State :: keep(s) && Next(cfg, s, s') ==> keep(s')
    requires forall s: State, s': State :: keep(s) && keep(s') && RoundEnd(cfg, s, s') ==> Advanced(run[i], s')
    ensures Advanced(run[i], run[j])
  {
    RunKeeps(cfg, run, keep, i, j - 1);
    RunKeeps(cfg, run, keep, i, j);
  }

  /** Progress. From an undrained state with nothing outstanding, a token in the bucket
      and the clock past every server's due time, the round that follows has dispatched
      a query or loaded a server by the time it reaches its end, whatever happens in
      between; and the loop is not left without it. */
  lemma Progress(cfg: Config, run: seq<State>, i: nat, j: nat)
    requires Behaviour(cfg, run) && i < j < |run| && ReadyToGo(cfg, run[i]) && RoundEnd(cfg, run[j - 1], run[j])
    ensures Advanced(run[i], run[j])
  {
    var keep := (s: State) => Underway(cfg, run[i], s);
    Always(cfg, run, i);
    UnderwayStart(cfg, run[i]);
    UnderwayKept(cfg, run[i], keep);
    ProgressOf(cfg, run, i, j, keep);
  }
}
