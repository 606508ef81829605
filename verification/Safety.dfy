/** Every step of the protocol keeps the invariant, so every run does. */
module Safety {
  import opened Answers
  import opened ServerState
  import opened Sums
  import opened Protocol
  import opened Checks
  import opened Invariant
  import opened WorkerSteps
  import opened CollectSteps

  /** All but the Core. */
  ghost predicate Rest(cfg: Config, s: State) {
    ChannelsOk(cfg, s) && PhaseOk(s) && TokensOk(cfg, s) && WaitOk(cfg, s)
  }

  /* ---- workers, refiller, clock ---------------------------------------------------- */

  lemma SendRest(cfg: Config, s: State, s': State, k: nat, reply: Reply)
    requires Rest(cfg, s) && Send(cfg, s, s', k, reply)
    ensures Rest(cfg, s')
  {
  }

  lemma ReleaseKeeps(cfg: Config, s: State, s': State)
    requires Rest(cfg, s) && Release(s, s')
    ensures Rest(cfg, s') && SameCore(s, s')
  {
  }

  lemma OneMoreRefill(refills: nat, amount: nat)
    ensures (refills + 1) * amount == refills * amount + amount
  {
  }

  lemma RefillKeeps(cfg: Config, s: State, s': State)
    requires Rest(cfg, s) && RefillTick(cfg, s, s')
    ensures Rest(cfg, s') && SameCore(s, s')
  {
    OneMoreRefill(s.refills, cfg.limits.refill);
  }

  lemma ClockKeeps(cfg: Config, s: State, s': State, time: int)
    requires Rest(cfg, s) && ClockTick(s, s', time)
    ensures Rest(cfg, s') && SameCore(s, s')
  {
  }

  lemma OtherKeepsInv(cfg: Config, s: State, s': State)
    requires Core(cfg, s) && Rest(cfg, s) && OtherMove(cfg, s, s')
    ensures Core(cfg, s') && Rest(cfg, s')
  {
    if k: nat, reply: Reply :| Send(cfg, s, s', k, reply) {
      SendCore(cfg, s, s', k, reply);
      SendRest(cfg, s, s', k, reply);
    } else if Release(s, s') {
      ReleaseKeeps(cfg, s, s');
      CoreFrame(cfg, s, s');
    } else if RefillTick(cfg, s, s') {
      RefillKeeps(cfg, s, s');
      CoreFrame(cfg, s, s');
    } else {
      var time: int :| ClockTick(s, s', time);
      ClockKeeps(cfg, s, s', time);
      CoreFrame(cfg, s, s');
    }
  }

  /* ---- the scheduler ------------------------------------------------------------------ */

  lemma CollectRest(cfg: Config, s: State, s': State)
    requires Rest(cfg, s) && Collect(cfg, s, s')
    ensures Rest(cfg, s')
  {
  }

  lemma CollectKeeps(cfg: Config, s: State, s': State)
    requires Core(cfg, s) && Rest(cfg, s) && Collect(cfg, s, s')
    ensures Core(cfg, s') && Rest(cfg, s')
  {
    CollectCore(cfg, s, s', s.results[0]);
    CollectRest(cfg, s, s');
  }

  lemma EmptySeenKeeps(cfg: Config, s: State, s': State)
    requires Rest(cfg, s) && EmptySeen(s, s')
    ensures Rest(cfg, s') && SameCore(s, s')
  {
  }

  lemma BeginKeeps(cfg: Config, s: State, s': State)
    requires Rest(cfg, s) && BeginPasses(cfg, s, s')
    ensures Rest(cfg, s') && SameCore(s, s')
  {
  }

  lemma VisitKeeps(cfg: Config, s: State, s': State, i: nat)
    requires Rest(cfg, s) && Visit(s, s', i)
    ensures Rest(cfg, s') && SameCore(s, s')
  {
  }

  lemma GiveBackKeeps(cfg: Config, s: State, s': State)
    requires Rest(cfg, s) && Place(cfg, s, s') && BusyJobs(s) >= Cap(cfg)
    ensures Rest(cfg, s') && SameCore(s, s')
  {
  }

  lemma DispatchRestOk(cfg: Config, s: State, s': State, i: nat)
    requires Rest(cfg, s) && CanDispatch(cfg, s, i) && s.phase.held == Some(i) && BusyJobs(s) < Cap(cfg)
    requires s' == Dispatched(cfg, s, i)
    ensures Rest(cfg, s')
  {
    assert s'.pool.Keys == s.pool.Keys;
  }

  lemma PlaceKeeps(cfg: Config, s: State, s': State)
    requires Core(cfg, s) && Rest(cfg, s) && Place(cfg, s, s')
    ensures Core(cfg, s') && Rest(cfg, s')
  {
    if BusyJobs(s) < Cap(cfg) {
      DispatchCore(cfg, s, s', s.phase.held.value);
      DispatchRestOk(cfg, s, s', s.phase.held.value);
    } else {
      GiveBackKeeps(cfg, s, s');
      CoreFrame(cfg, s, s');
    }
  }

  lemma EndPassKeeps(cfg: Config, s: State, s': State)
    requires Rest(cfg, s) && EndPass(s, s')
    ensures Rest(cfg, s') && SameCore(s, s')
  {
  }

  lemma TestDrainedKeeps(cfg: Config, s: State, s': State)
    requires Rest(cfg, s) && TestDrained(cfg, s, s')
    ensures Rest(cfg, s') && SameCore(s, s')
  {
  }

  lemma LoadRest(cfg: Config, s: State, s': State)
    requires Rest(cfg, s) && s.phase.Loading? && s'.phase == Collecting
    requires SameButPool(s, s'.(phase := s.phase))
    ensures Rest(cfg, s')
  {
  }

  lemma LoadKeeps(cfg: Config, s: State, s': State)
    requires GoodConfig(cfg) && Core(cfg, s) && Rest(cfg, s) && Load(cfg, s, s')
    ensures Core(cfg, s') && Rest(cfg, s')
  {
    var t := LoadedN(cfg, s, Budget(s));
    LoadNCore(cfg, s, Budget(s));
    LoadNSame(cfg, s, Budget(s));
    CoreFrame(cfg, t, s');
    LoadRest(cfg, s, s');
  }

  lemma SchedulerKeepsInv(cfg: Config, s: State, s': State)
    requires GoodConfig(cfg) && Core(cfg, s) && Rest(cfg, s) && SchedulerMove(cfg, s, s')
    ensures Core(cfg, s') && Rest(cfg, s')
  {
    if Collect(cfg, s, s') { CollectKeeps(cfg, s, s'); }
    else if Place(cfg, s, s') { PlaceKeeps(cfg, s, s'); }
    else if Load(cfg, s, s') { LoadKeeps(cfg, s, s'); }
    else { QuietKeeps(cfg, s, s'); }
  }

  /** The scheduler's steps that touch no record. */
  lemma QuietKeeps(cfg: Config, s: State, s': State)
    requires Core(cfg, s) && Rest(cfg, s) && SchedulerMove(cfg, s, s')
    requires !Collect(cfg, s, s') && !Place(cfg, s, s') && !Load(cfg, s, s')
    ensures Core(cfg, s') && Rest(cfg, s')
  {
    if EmptySeen(s, s') { EmptySeenKeeps(cfg, s, s'); }
    else if BeginPasses(cfg, s, s') { BeginKeeps(cfg, s, s'); }
    else if EndPass(s, s') { EndPassKeeps(cfg, s, s'); }
    else if TestDrained(cfg, s, s') { TestDrainedKeeps(cfg, s, s'); }
    else {
      var i: nat :| Visit(s, s', i);
      VisitKeeps(cfg, s, s', i);
    }
    CoreFrame(cfg, s, s');
  }

  lemma StepKeepsInv(cfg: Config, s: State, s': State)
    requires GoodConfig(cfg) && Inv(cfg, s) && Next(cfg, s, s')
    ensures Inv(cfg, s')
  {
    if OtherMove(cfg, s, s') { OtherKeepsInv(cfg, s, s'); } else { SchedulerKeepsInv(cfg, s, s'); }
  }

  /** Whatever holds at the start and is kept by every step holds all along. */
  lemma {:induction false} RunKeeps(cfg: Config, run: seq<State>, keep: State -> bool, from: nat, i: nat)
    requires IsRun(cfg, run) && from <= i < |run| && keep(run[from])
    requires forall s: State, s': State :: keep(s) && Next(cfg, s, s') ==> keep(s')
    ensures keep(run[i])
  {
    if from < i {
      RunKeeps(cfg, run, keep, from, i - 1);
      assert StepInto(cfg, run, i);
    }
  }

  /** The invariant holds in every state of every run, whatever the network answers and
      however the goroutines interleave. */
  lemma Always(cfg: Config, run: seq<State>, i: nat)
    requires Behaviour(cfg, run) && i < |run|
    ensures Inv(cfg, run[i])
  {
    var keep := (s: State) => Inv(cfg, s);
    InitInv(cfg, run[0]);
    forall s: State, s': State | keep(s) && Next(cfg, s, s') ensures keep(s') {
      StepKeepsInv(cfg, s, s');
    }
    RunKeeps(cfg, run, keep, 0, i);
  }

  /* ---- runs made longer ---------------------------------------------------------- */

  function Last(run: seq<State>): State
    requires |run| > 0
  {
    run[|run| - 1]
  }

  lemma Extend(cfg: Config, run: seq<State>, s': State)
    requires Behaviour(cfg, run) && Next(cfg, Last(run), s')
    ensures Behaviour(cfg, run + [s']) && Last(run + [s']) == s'
  {
    var run' := run + [s'];
    forall i: nat | 0 < i < |run'| ensures StepInto(cfg, run', i) {
      if i < |run| {
        assert StepInto(cfg, run, i);
        assert run'[i - 1] == run[i - 1] && run'[i] == run[i];
      } else {
        assert run'[i - 1] == Last(run) && run'[i] == s';
      }
    }
  }

  lemma ExtendOther(cfg: Config, run: seq<State>, s': State)
    requires Behaviour(cfg, run) && OtherMove(cfg, Last(run), s')
    ensures Behaviour(cfg, run + [s']) && Last(run + [s']) == s'
  {
    Extend(cfg, run, s');
  }

  lemma ExtendScheduler(cfg: Config, run: seq<State>, s': State)
    requires Behaviour(cfg, run) && SchedulerMove(cfg, Last(run), s')
    ensures Behaviour(cfg, run + [s']) && Last(run + [s']) == s'
  {
    Extend(cfg, run, s');
  }

  /** A received result names a check that its server has. */
  lemma ResultInRange(cfg: Config, run: seq<State>, i: nat)
    requires Behaviour(cfg, run) && i < |run| && |run[i].results| > 0
    ensures var res := run[i].results[0]; res.srv in run[i].pool ==> res.check < |run[i].pool[res.srv].checks|
  {
    Always(cfg, run, i);
    FirstResult(cfg, run[i]);
  }

  lemma FirstResult(cfg: Config, s: State)
    requires JobsOk(cfg, s) && |s.results| > 0
    ensures s.results[0].srv in s.pool ==> s.results[0].check < |s.pool[s.results[0].srv].checks|
  {
    assert ResultOk(cfg, s, s.results[0]);
  }

  /** The front of a pending queue names a check of the server that has attempts left. */
  lemma FrontInRange(cfg: Config, run: seq<State>, i: nat, id: nat)
    requires Behaviour(cfg, run) && i < |run| && id in run[i].pool && |run[i].pool[id].pending| > 0
    ensures run[i].pool[id].pending[0] < |run[i].pool[id].checks|
    ensures 0 <= cfg.maxAttempts - run[i].pool[id].checks[run[i].pool[id].pending[0]].attemptsLeft
  {
    Always(cfg, run, i);
    FrontOf(cfg, run[i], id);
  }

  lemma FrontOf(cfg: Config, s: State, id: nat)
    requires ServersOk(cfg, s) && id in s.pool && |s.pool[id].pending| > 0
    ensures s.pool[id].pending[0] < |s.pool[id].checks|
    ensures 0 <= Attempted(cfg, s.pool[id].checks[s.pool[id].pending[0]])
  {
    var srv, out, logged := s.pool[id], OutOf(s, id), LoggedOf(s, id);
    assert ServerOk(cfg, id, srv, out, logged);
    var c := srv.pending[0];
    assert c in srv.pending;
    assert CheckOk(cfg, id, c, srv.checks[c], Times(srv.pending, c), out(c), logged(c));
  }

  lemma PendingWhenHeld(cfg: Config, run: seq<State>, k: nat, i: nat)
    requires Behaviour(cfg, run) && k < |run| && run[k].phase.Scheduling? && run[k].phase.held == Some(i)
    ensures i in run[k].pool && |run[k].pool[i].pending| > 0
  {
    Always(cfg, run, k);
  }
}
