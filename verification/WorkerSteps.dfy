/** The invariant through worker sends, dispatches and loads. */
module WorkerSteps {
  import opened ServerState
  import opened Sums
  import opened Protocol
  import opened Checks
  import opened Invariant

  /* ---- a worker sends -------------------------------------------------------- */

  lemma SendOut(cfg: Config, s: State, s': State, k: nat, reply: Reply)
    requires Send(cfg, s, s', k, reply)
    ensures forall i: nat, c: nat :: Out(s', i, c) == Out(s, i, c)
  {
    var job := s.workers[k];
    forall i: nat, c: nat ensures Out(s', i, c) == Out(s, i, c) {
      JobCountDrop(s.workers, k, i, c);
      ResultCountAdd(s.results, WorkerResult(job.srv, job.check, reply), i, c);
    }
  }

  lemma AttemptedNonNegative(cfg: Config, s: State, i: nat, c: nat)
    requires ServersOk(cfg, s) && i in s.pool && c < NumChecks(cfg)
    ensures c < |s.pool[i].checks| && 0 <= Attempted(cfg, s.pool[i].checks[c])
  {
    assert ServerOk(cfg, i, s.pool[i], OutOf(s, i), LoggedOf(s, i));
    assert CheckOk(cfg, i, c, s.pool[i].checks[c], Times(s.pool[i].pending, c), OutOf(s, i)(c), LoggedOf(s, i)(c));
  }

  lemma SendJobs(cfg: Config, s: State, s': State, k: nat, reply: Reply)
    requires Send(cfg, s, s', k, reply) && PoolOk(cfg, s) && ServersOk(cfg, s) && JobsOk(cfg, s)
    ensures JobsOk(cfg, s')
  {
    var job := s.workers[k];
    assert JobOk(cfg, s, job);
    if job.srv in s.pool {
      AttemptedNonNegative(cfg, s, job.srv, job.check);
    }
    forall j | 0 <= j < |s'.workers| ensures JobOk(cfg, s', s'.workers[j]) {
      assert s'.workers[j] == s.workers[if j < k then j else j + 1];
    }
    forall j | 0 <= j < |s'.results| ensures ResultOk(cfg, s', s'.results[j]) {
      if j < |s.results| { assert ResultOk(cfg, s, s.results[j]); }
    }
  }

  lemma SendCore(cfg: Config, s: State, s': State, k: nat, reply: Reply)
    requires Core(cfg, s) && Send(cfg, s, s', k, reply)
    ensures Core(cfg, s')
  {
    SendOut(cfg, s, s', k, reply);
    ServersFrame(cfg, s, s');
    InFlightFrame(cfg, s, s');
    SendJobs(cfg, s, s', k, reply);
    var s1 := s'.(workers := s.workers, results := s.results);
    PoolFrame(cfg, s, s1);
    LogFrame(cfg, s, s1);
    ReportsFrame(cfg, s, s1);
    AccountFrame(cfg, s, s1);
    NoJobsNeeded(cfg, s1, s'.workers, s'.results);
  }

  /** Four of the parts do not look at the outstanding queries. */
  lemma NoJobsNeeded(cfg: Config, s: State, ws: seq<Job>, rs: seq<WorkerResult>)
    requires PoolOk(cfg, s) && LogOk(cfg, s) && ReportsOk(cfg, s) && AccountOk(cfg, s)
    ensures var s' := s.(workers := ws, results := rs);
            PoolOk(cfg, s') && LogOk(cfg, s') && ReportsOk(cfg, s') && AccountOk(cfg, s')
  {
  }

  /* ---- a dispatch ---------------------------------------------------------------- */

  /** A pass has server i with a token in hand and a job slot free. */
  ghost predicate CanDispatch(cfg: Config, s: State, i: nat) {
    && s.phase.Scheduling? && i in s.pool && |s.pool[i].pending| > 0
    && s.pool[i].pending[0] < |s.pool[i].checks| && s.pool[i].nextQueryAt <= s.phase.now
  }

  lemma DispatchCounts(cfg: Config, s: State, i: nat)
    requires CanDispatch(cfg, s, i)
    ensures var s', c := Dispatched(cfg, s, i), s.pool[i].pending[0];
            OneMore(s, s', i, c)
  {
    var s', c := Dispatched(cfg, s, i), s.pool[i].pending[0];
    var job := NextJob(cfg, s, i);
    forall j: nat, d: nat ensures Out(s', j, d) == Out(s, j, d) + Bit(j == i && d == c) {
      JobCountAdd(s.workers, job, j, d);
    }
    forall j: nat, d: nat ensures LogCount(s'.log, j, d) == LogCount(s.log, j, d) + Bit(j == i && d == c) {
      LogCountAdd(s.log, Dispatch(i, job.check, job.attempt, s.phase.now), j, d);
    }
  }

  /** One more query of server i for check c is out and on record. */
  ghost predicate OneMore(s: State, s': State, i: nat, c: nat) {
    && (forall j: nat, d: nat :: Out(s', j, d) == Out(s, j, d) + Bit(j == i && d == c))
    && (forall j: nat, d: nat :: LogCount(s'.log, j, d) == LogCount(s.log, j, d) + Bit(j == i && d == c))
  }

  lemma DispatchedServer(cfg: Config, s: State, s': State, i: nat, at: int)
    requires i in s.pool && |s.pool[i].pending| > 0 && OneMore(s, s', i, s.pool[i].pending[0])
    requires ServerOk(cfg, i, s.pool[i], OutOf(s, i), LoggedOf(s, i))
    ensures ServerOk(cfg, i, FrontTaken(s.pool[i], at), OutOf(s', i), LoggedOf(s', i))
  {
    DispatchKeepsChecks(cfg, i, s.pool[i], at, OutOf(s, i), LoggedOf(s, i), OutOf(s', i), LoggedOf(s', i));
  }

  lemma UndispatchedServer(cfg: Config, s: State, s': State, i: nat, c: nat, j: nat)
    requires OneMore(s, s', i, c) && j != i && j in s.pool && j in s'.pool && s'.pool[j] == s.pool[j]
    requires ServerOk(cfg, j, s.pool[j], OutOf(s, j), LoggedOf(s, j))
    ensures ServerOk(cfg, j, s'.pool[j], OutOf(s', j), LoggedOf(s', j))
  {
    ServerFrame(cfg, s, s', j);
  }

  /** What a dispatch to server i, next due at `at`, does to the pool. */
  ghost predicate DispatchEffect(s: State, s': State, i: nat, at: int) {
    && i in s.pool && |s.pool[i].pending| > 0 && OneMore(s, s', i, s.pool[i].pending[0])
    && s'.pool.Keys == s.pool.Keys && s'.pool[i] == FrontTaken(s.pool[i], at)
    && (forall j :: j in s.pool && j != i ==> s'.pool[j] == s.pool[j])
  }

  lemma DispatchServers(cfg: Config, s: State, s': State, i: nat, at: int)
    requires DispatchEffect(s, s', i, at)
    requires ServersOk(cfg, s)
    ensures ServersOk(cfg, s')
  {
    var c := s.pool[i].pending[0];
    forall j | j in s'.pool.Keys ensures ServerOk(cfg, j, s'.pool[j], OutOf(s', j), LoggedOf(s', j)) {
      if j == i {
        DispatchedServer(cfg, s, s', i, at);
      } else {
        UndispatchedServer(cfg, s, s', i, c, j);
      }
    }
  }

  /** Jobs look only at the checks of the loaded servers, which a dispatch leaves alone. */
  ghost predicate SameChecks(s: State, s': State) {
    && s'.nextSlot == s.nextSlot && s'.cancelled == s.cancelled && s'.pool.Keys == s.pool.Keys
    && forall j :: j in s.pool ==> s'.pool[j].checks == s.pool[j].checks
  }

  lemma JobStays(cfg: Config, s: State, s': State, job: Job)
    requires SameChecks(s, s') && JobOk(cfg, s, job)
    ensures JobOk(cfg, s', job)
  {
    assert job.srv in s.pool <==> job.srv in s.pool.Keys;
    assert job.srv in s'.pool <==> job.srv in s'.pool.Keys;
  }

  lemma ResultStays(cfg: Config, s: State, s': State, r: WorkerResult)
    requires SameChecks(s, s') && ResultOk(cfg, s, r)
    ensures ResultOk(cfg, s', r)
  {
    assert r.srv in s.pool <==> r.srv in s.pool.Keys;
    assert r.srv in s'.pool <==> r.srv in s'.pool.Keys;
  }

  lemma NextJobOk(cfg: Config, s: State, i: nat)
    requires CanDispatch(cfg, s, i) && PoolOk(cfg, s) && ServersOk(cfg, s)
    ensures JobOk(cfg, s, NextJob(cfg, s, i))
  {
    assert ServerOk(cfg, i, s.pool[i], OutOf(s, i), LoggedOf(s, i));
    AttemptedNonNegative(cfg, s, i, s.pool[i].pending[0]);
  }

  lemma DispatchJobs(cfg: Config, s: State, s': State, job: Job)
    requires SameChecks(s, s') && JobsOk(cfg, s) && JobOk(cfg, s, job)
    requires s'.workers == s.workers + [job] && s'.results == s.results
    ensures JobsOk(cfg, s')
  {
    JobStays(cfg, s, s', job);
    forall k | 0 <= k < |s.workers| ensures JobOk(cfg, s', s.workers[k]) {
      JobStays(cfg, s, s', s.workers[k]);
    }
    forall k | 0 <= k < |s.results| ensures ResultOk(cfg, s', s.results[k]) {
      ResultStays(cfg, s, s', s.results[k]);
    }
  }

  lemma MoreInFlight(cfg: Config, s: State, s': State, i: nat, c: nat)
    requires c < NumChecks(cfg) && OneMore(s, s', i, c) && InFlightOk(cfg, s)
    requires s'.inFlight == s.inFlight[i := InFlight(s, i) + 1]
    ensures InFlightOk(cfg, s')
  {
    forall j: nat ensures InFlight(s', j) == Sum(NumChecks(cfg), OutOf(s', j)) {
      if j == i {
        SumChange(NumChecks(cfg), OutOf(s, i), OutOf(s', i), c);
      } else {
        SumEqual(NumChecks(cfg), OutOf(s, j), OutOf(s', j));
      }
    }
  }

  lemma DispatchSpaced(cfg: Config, s: State, i: nat)
    requires CanDispatch(cfg, s, i) && LogOk(cfg, s)
    ensures Spaced(cfg, Dispatched(cfg, s, i).log)
  {
  }

  /** The check dispatched had an attempt left. */
  lemma AttemptWasLeft(cfg: Config, s: State, i: nat)
    requires CanDispatch(cfg, s, i) && ServersOk(cfg, s)
    ensures s.pool[i].pending[0] < NumChecks(cfg) && LogCount(s.log, i, s.pool[i].pending[0]) < cfg.maxAttempts
  {
    var c := s.pool[i].pending[0];
    assert ServerOk(cfg, i, s.pool[i], OutOf(s, i), LoggedOf(s, i));
    assert CheckOk(cfg, i, c, s.pool[i].checks[c], Times(s.pool[i].pending, c), OutOf(s, i)(c), LoggedOf(s, i)(c));
    assert c in s.pool[i].pending;
  }

  lemma DispatchLogLines(cfg: Config, s: State, i: nat)
    requires CanDispatch(cfg, s, i) && PoolOk(cfg, s) && LogOk(cfg, s) && s.pool[i].pending[0] < NumChecks(cfg)
    ensures var s' := Dispatched(cfg, s, i);
            && (forall k :: 0 <= k < |s'.log| ==> s'.log[k].srv < s'.nextSlot && s'.log[k].check < NumChecks(cfg))
            && (forall k :: 0 <= k < |s'.log| && s'.log[k].srv in s'.pool ==>
                  s'.log[k].time + cfg.interval <= s'.pool[s'.log[k].srv].nextQueryAt)
  {
  }

  lemma DispatchAttempts(cfg: Config, s: State, s': State, i: nat, c: nat)
    requires OneMore(s, s', i, c) && LogCount(s.log, i, c) < cfg.maxAttempts
    requires forall j: nat, d: nat :: LogCount(s.log, j, d) <= cfg.maxAttempts
    ensures forall j: nat, d: nat :: LogCount(s'.log, j, d) <= cfg.maxAttempts
  {
    forall j: nat, d: nat ensures LogCount(s'.log, j, d) <= cfg.maxAttempts {
      assert LogCount(s.log, j, d) <= cfg.maxAttempts;
    }
  }

  lemma DispatchAccount(cfg: Config, s: State, i: nat)
    requires CanDispatch(cfg, s, i) && AccountOk(cfg, s)
    ensures AccountOk(cfg, Dispatched(cfg, s, i))
  {
    var s' := Dispatched(cfg, s, i);
    SumEqual(NumServers(cfg), LeftOf(cfg, s.pool, s.nextSlot), LeftOf(cfg, s'.pool, s'.nextSlot));
  }

  lemma DispatchReports(cfg: Config, s: State, i: nat)
    requires CanDispatch(cfg, s, i) && PoolOk(cfg, s) && ReportsOk(cfg, s)
    ensures ReportsOk(cfg, Dispatched(cfg, s, i)) && PoolOk(cfg, Dispatched(cfg, s, i))
  {
    var s' := Dispatched(cfg, s, i);
    assert s'.pool.Keys == s.pool.Keys;
    assert |s'.pool| == |s'.pool.Keys| == |s.pool.Keys| == |s.pool|;
  }

  lemma DispatchedParts(cfg: Config, s: State, i: nat)
    requires CanDispatch(cfg, s, i)
    ensures var s' := Dispatched(cfg, s, i);
            && s'.pool == s.pool[i := FrontTaken(s.pool[i], s.phase.now + cfg.interval)]
            && SameChecks(s, s') && s'.inFlight == s.inFlight[i := InFlight(s, i) + 1]
            && s'.workers == s.workers + [NextJob(cfg, s, i)] && s'.results == s.results
  {
    assert Dispatched(cfg, s, i).pool.Keys == s.pool.Keys;
  }

  lemma DispatchHasEffect(cfg: Config, s: State, s': State, i: nat)
    requires CanDispatch(cfg, s, i) && s' == Dispatched(cfg, s, i)
    ensures DispatchEffect(s, s', i, s.phase.now + cfg.interval)
  {
    DispatchCounts(cfg, s, i);
    DispatchedParts(cfg, s, i);
  }

  lemma DispatchedJobs(cfg: Config, s: State, i: nat)
    requires CanDispatch(cfg, s, i) && PoolOk(cfg, s) && ServersOk(cfg, s) && JobsOk(cfg, s)
    ensures JobsOk(cfg, Dispatched(cfg, s, i))
  {
    DispatchedParts(cfg, s, i);
    NextJobOk(cfg, s, i);
    DispatchJobs(cfg, s, Dispatched(cfg, s, i), NextJob(cfg, s, i));
  }

  lemma DispatchedInFlight(cfg: Config, s: State, i: nat)
    requires CanDispatch(cfg, s, i) && ServersOk(cfg, s) && InFlightOk(cfg, s)
    ensures InFlightOk(cfg, Dispatched(cfg, s, i))
  {
    DispatchCounts(cfg, s, i);
    DispatchedParts(cfg, s, i);
    AttemptWasLeft(cfg, s, i);
    MoreInFlight(cfg, s, Dispatched(cfg, s, i), i, s.pool[i].pending[0]);
  }

  lemma DispatchedLog(cfg: Config, s: State, i: nat)
    requires CanDispatch(cfg, s, i) && PoolOk(cfg, s) && ServersOk(cfg, s) && LogOk(cfg, s)
    ensures LogOk(cfg, Dispatched(cfg, s, i))
  {
    DispatchCounts(cfg, s, i);
    AttemptWasLeft(cfg, s, i);
    DispatchSpaced(cfg, s, i);
    DispatchLogLines(cfg, s, i);
    DispatchAttempts(cfg, s, Dispatched(cfg, s, i), i, s.pool[i].pending[0]);
  }

  lemma DispatchRest(cfg: Config, s: State, s': State, i: nat)
    requires PoolOk(cfg, s) && ServersOk(cfg, s) && JobsOk(cfg, s) && InFlightOk(cfg, s)
    requires LogOk(cfg, s) && ReportsOk(cfg, s) && AccountOk(cfg, s)
    requires CanDispatch(cfg, s, i) && s' == Dispatched(cfg, s, i)
    ensures PoolOk(cfg, s') && JobsOk(cfg, s') && InFlightOk(cfg, s')
    ensures LogOk(cfg, s') && ReportsOk(cfg, s') && AccountOk(cfg, s')
  {
    DispatchedJobs(cfg, s, i);
    DispatchedInFlight(cfg, s, i);
    DispatchedLog(cfg, s, i);
    DispatchAccount(cfg, s, i);
    DispatchReports(cfg, s, i);
  }

  lemma DispatchCore(cfg: Config, s: State, s': State, i: nat)
    requires Core(cfg, s) && CanDispatch(cfg, s, i) && s' == Dispatched(cfg, s, i)
    ensures Core(cfg, s')
  {
    DispatchHasEffect(cfg, s, s', i);
    DispatchServers(cfg, s, s', i, s.phase.now + cfg.interval);
    DispatchRest(cfg, s, s', i);
  }

  /* ---- loading one server -------------------------------------------------------------- */

  lemma LoadPool(cfg: Config, s: State)
    requires CanGrow(cfg, s) && PoolOk(cfg, s) && ReportsOk(cfg, s)
    ensures PoolOk(cfg, LoadedOne(cfg, s)) && s.nextSlot !in s.pool && s.nextSlot !in s.cancelled
    ensures |LoadedOne(cfg, s).pool| == |s.pool| + 1
  {
    var s', i := LoadedOne(cfg, s), s.nextSlot;
    assert s'.pool.Keys == s.pool.Keys + {i};
    assert |s'.pool.Keys| == |s'.pool| && |s.pool.Keys| == |s.pool|;
  }

  lemma LoadNothingOut(cfg: Config, s: State)
    requires CanGrow(cfg, s) && JobsOk(cfg, s) && LogOk(cfg, s)
    ensures forall c: nat :: Out(s, s.nextSlot, c) == 0 && LogCount(s.log, s.nextSlot, c) == 0
  {
    assert forall k :: 0 <= k < |s.workers| ==> JobOk(cfg, s, s.workers[k]);
    assert forall k :: 0 <= k < |s.results| ==> ResultOk(cfg, s, s.results[k]);
    forall c: nat ensures Out(s, s.nextSlot, c) == 0 && LogCount(s.log, s.nextSlot, c) == 0 {
      NoneForServer(s, s.nextSlot, c);
      NeverDispatched(s.log, s.nextSlot, c);
    }
  }

  lemma LoadServers(cfg: Config, s: State)
    requires GoodConfig(cfg) && CanGrow(cfg, s) && PoolOk(cfg, s) && ReportsOk(cfg, s)
    requires ServersOk(cfg, s) && JobsOk(cfg, s) && LogOk(cfg, s)
    ensures ServersOk(cfg, LoadedOne(cfg, s))
  {
    var s' := LoadedOne(cfg, s);
    LoadPool(cfg, s);
    LoadNothingOut(cfg, s);
    OutSame(s, s');
    forall j | j in s'.pool ensures ServerOk(cfg, j, s'.pool[j], OutOf(s', j), LoggedOf(s', j)) {
      if j == s.nextSlot {
        FreshServerOk(cfg, j, OutOf(s', j), LoggedOf(s', j));
      } else {
        ServerFrame(cfg, s, s', j);
      }
    }
  }

  lemma LoadJobs(cfg: Config, s: State)
    requires CanGrow(cfg, s) && JobsOk(cfg, s)
    ensures JobsOk(cfg, LoadedOne(cfg, s))
  {
    var s' := LoadedOne(cfg, s);
    forall k | 0 <= k < |s'.workers| ensures JobOk(cfg, s', s'.workers[k]) {
      assert JobOk(cfg, s, s.workers[k]);
    }
    forall k | 0 <= k < |s'.results| ensures ResultOk(cfg, s', s'.results[k]) {
      assert ResultOk(cfg, s, s.results[k]);
    }
  }

  lemma LoadRecords(cfg: Config, s: State)
    requires CanGrow(cfg, s) && PoolOk(cfg, s) && LogOk(cfg, s) && ReportsOk(cfg, s) && s.nextSlot !in s.pool
    ensures LogOk(cfg, LoadedOne(cfg, s)) && ReportsOk(cfg, LoadedOne(cfg, s))
  {
  }

  lemma LoadInFlight(cfg: Config, s: State)
    requires CanGrow(cfg, s) && InFlightOk(cfg, s)
    ensures InFlightOk(cfg, LoadedOne(cfg, s))
  {
    OutSame(s, LoadedOne(cfg, s));
    InFlightFrame(cfg, s, LoadedOne(cfg, s));
  }

  lemma LoadAccount(cfg: Config, s: State)
    requires CanGrow(cfg, s) && PoolOk(cfg, s) && AccountOk(cfg, s) && s.nextSlot !in s.pool
    ensures AccountOk(cfg, LoadedOne(cfg, s))
  {
    var s' := LoadedOne(cfg, s);
    SameLeft(cfg, s.pool, s.nextSlot, NewServer(cfg.servers[s.dequeueIdx], cfg.template, cfg.maxAttempts));
    SumEqual(NumServers(cfg), LeftOf(cfg, s.pool, s.nextSlot), LeftOf(cfg, s'.pool, s'.nextSlot));
  }

  /** A server that comes out of the queue has all its checks left, as it had in it. */
  lemma SameLeft(cfg: Config, pool: map<nat, Server>, slot: nat, srv: Server)
    requires srv.completed == 0
    ensures forall i: nat :: LeftOf(cfg, pool, slot)(i) == LeftOf(cfg, pool[slot := srv], slot + 1)(i)
  {
  }

  lemma LoadOneCore(cfg: Config, s: State)
    requires GoodConfig(cfg) && Core(cfg, s) && CanGrow(cfg, s)
    ensures Core(cfg, LoadedOne(cfg, s))
  {
    LoadPool(cfg, s);
    LoadServers(cfg, s);
    LoadJobs(cfg, s);
    LoadInFlight(cfg, s);
    LoadAccount(cfg, s);
    LoadRecords(cfg, s);
  }

  ghost predicate SameButPool(s: State, s': State) {
    s' == s.(pool := s'.pool, dequeueIdx := s'.dequeueIdx, nextSlot := s'.nextSlot)
  }

  lemma {:induction false} LoadNSame(cfg: Config, s: State, n: nat)
    ensures SameButPool(s, LoadedN(cfg, s, n))
    decreases n
  {
    if n > 0 && CanGrow(cfg, s) {
      LoadNSame(cfg, LoadedOne(cfg, s), n - 1);
    }
  }

  lemma LoadNStep(cfg: Config, s: State, n: nat)
    ensures if n > 0 && CanGrow(cfg, s) then LoadedN(cfg, s, n) == LoadedN(cfg, LoadedOne(cfg, s), n - 1)
            else LoadedN(cfg, s, n) == s
  {
  }

  /** Whatever each single load keeps, LoadN keeps. */
  lemma {:induction false} LoadNKeeps(cfg: Config, s: State, n: nat, keep: State -> bool)
    requires keep(s) && forall t: State :: keep(t) && CanGrow(cfg, t) ==> keep(LoadedOne(cfg, t))
    ensures keep(LoadedN(cfg, s, n))
    decreases n
  {
    LoadNStep(cfg, s, n);
    if n > 0 && CanGrow(cfg, s) {
      LoadNKeeps(cfg, LoadedOne(cfg, s), n - 1, keep);
    }
  }

  lemma LoadNCore(cfg: Config, s: State, n: nat)
    requires GoodConfig(cfg) && Core(cfg, s)
    ensures Core(cfg, LoadedN(cfg, s, n))
  {
    var keep := (t: State) => Core(cfg, t);
    forall t: State | keep(t) && CanGrow(cfg, t) ensures keep(LoadedOne(cfg, t)) {
      LoadOneCore(cfg, t);
    }
    LoadNKeeps(cfg, s, n, keep);
  }
}
