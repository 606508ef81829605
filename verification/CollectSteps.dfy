/** The invariant through the collection of one result. */
module CollectSteps {
  import opened ServerState
  import opened Sums
  import opened Protocol
  import opened Checks
  import opened Invariant

  /** One query of server i for check c is no longer out. */
  ghost predicate OneLess(s: State, s': State, i: nat, c: nat) {
    && (forall j: nat, d: nat :: Out(s', j, d) == Out(s, j, d) - Bit(j == i && d == c))
    && s'.log == s.log
  }

  ghost predicate Collects(cfg: Config, s: State, s': State, res: WorkerResult) {
    && |s.results| > 0 && res == s.results[0]
    && (res.srv in s.pool ==> res.check < |s.pool[res.srv].checks|)
    && s' == Protocol.Collected(cfg, s, res)
  }

  lemma CollectCounts(cfg: Config, s: State, s': State, res: WorkerResult)
    requires Collects(cfg, s, s', res)
    ensures OneLess(s, s', res.srv, res.check)
    ensures s'.workers == s.workers && s'.results == s.results[1..]
    ensures s'.inFlight == Decremented(s.inFlight, res.srv)
    ensures s'.nextSlot == s.nextSlot && s'.dequeueIdx == s.dequeueIdx
  {
    forall j: nat, d: nat ensures Out(s', j, d) == Out(s, j, d) - Bit(j == res.srv && d == res.check) {
      ResultCountTail(s.results, j, d);
    }
  }

  /* ---- the inFlight map --------------------------------------------------------- */

  lemma LessInFlight(cfg: Config, s: State, s': State, i: nat, c: nat)
    requires c < NumChecks(cfg) && OneLess(s, s', i, c) && InFlightOk(cfg, s)
    requires s'.inFlight == Decremented(s.inFlight, i)
    ensures InFlightOk(cfg, s')
  {
    SumChange(NumChecks(cfg), OutOf(s, i), OutOf(s', i), c);
    SumZero(NumChecks(cfg), OutOf(s', i));
    forall j: nat ensures InFlight(s', j) == Sum(NumChecks(cfg), OutOf(s', j)) {
      if j != i {
        SumEqual(NumChecks(cfg), OutOf(s, j), OutOf(s', j));
      }
    }
  }

  /* ---- what the collected result is ------------------------------------------------- */

  lemma FirstResultOk(cfg: Config, s: State)
    requires JobsOk(cfg, s) && |s.results| > 0
    ensures ResultOk(cfg, s, s.results[0])
    ensures Out(s, s.results[0].srv, s.results[0].check) > 0
  {
    ResultCountPositive(s.results, 0);
  }

  /** A collected result is the oracle's reply to the only query out for its check. */
  lemma CollectedReply(cfg: Config, s: State, res: WorkerResult)
    requires ServersOk(cfg, s) && JobsOk(cfg, s) && |s.results| > 0 && res == s.results[0] && res.srv in s.pool
    ensures res.check < NumChecks(cfg) && res.check < |s.pool[res.srv].checks| && Out(s, res.srv, res.check) == 1
    ensures 0 <= Attempted(cfg, s.pool[res.srv].checks[res.check])
    ensures res.reply == cfg.oracle(res.srv, res.check, Attempted(cfg, s.pool[res.srv].checks[res.check]))
  {
    var i, c := res.srv, res.check;
    FirstResultOk(cfg, s);
    assert ServerOk(cfg, i, s.pool[i], OutOf(s, i), LoggedOf(s, i));
    assert CheckOk(cfg, i, c, s.pool[i].checks[c], Times(s.pool[i].pending, c), OutOf(s, i)(c), LoggedOf(s, i)(c));
  }

  /** The server after its result: still in order, or finished with the sequential verdict. */
  ghost predicate AfterResult(cfg: Config, s': State, i: nat, srv': Server) {
    && i < NumServers(cfg) && srv'.ip == cfg.servers[i]
    && (!Finished(srv') ==> ServerOk(cfg, i, srv', OutOf(s', i), LoggedOf(s', i)) && !srv'.disabled)
    && (Finished(srv') ==>
          && (srv'.disabled <==> !Valid(cfg, i))
          && (srv'.failed > 0 <==> Mismatches(cfg, i) > 0)
          && (!srv'.disabled ==> forall d: nat :: d < NumChecks(cfg) ==> Out(s', i, d) == 0))
  }

  lemma AppliedAfter(cfg: Config, s: State, s': State, i: nat, c: nat, reply: Reply, srv: Server)
    requires ServerOk(cfg, i, srv, OutOf(s, i), LoggedOf(s, i)) && c < NumChecks(cfg) && Out(s, i, c) == 1
    requires 0 <= Attempted(cfg, srv.checks[c]) && reply == cfg.oracle(i, c, Attempted(cfg, srv.checks[c]))
    requires OneLess(s, s', i, c)
    ensures AfterResult(cfg, s', i, Applied(srv, c, reply, cfg.maxFailures))
  {
    AppliedServer(cfg, i, srv, c, reply, OutOf(s, i), LoggedOf(s, i), OutOf(s', i));
    ChecksFrame(cfg, i, Applied(srv, c, reply, cfg.maxFailures), OutOf(s', i), LoggedOf(s, i), OutOf(s', i),
        LoggedOf(s', i));
    assert forall d: nat :: OutOf(s', i)(d) == Out(s', i, d);
  }

  lemma CollectedServer(cfg: Config, s: State, s': State, res: WorkerResult)
    requires ServersOk(cfg, s) && JobsOk(cfg, s) && |s.results| > 0 && res == s.results[0] && res.srv in s.pool
    requires OneLess(s, s', res.srv, res.check)
    ensures res.check < NumChecks(cfg) && res.check < |s.pool[res.srv].checks|
    ensures Out(s', res.srv, res.check) == 0
    ensures AfterResult(cfg, s', res.srv, Applied(s.pool[res.srv], res.check, res.reply, cfg.maxFailures))
  {
    CollectedReply(cfg, s, res);
    assert ServerOk(cfg, res.srv, s.pool[res.srv], OutOf(s, res.srv), LoggedOf(s, res.srv));
    AppliedAfter(cfg, s, s', res.srv, res.check, res.reply, s.pool[res.srv]);
  }

  /* ---- servers ------------------------------------------------------------------------ */

  /** Of the loaded servers only number i may have changed or left. */
  ghost predicate OthersKept(s: State, s': State, i: nat) {
    forall j :: j in s'.pool && j != i ==> j in s.pool && s'.pool[j] == s.pool[j]
  }

  lemma CollectServers(cfg: Config, s: State, s': State, i: nat, c: nat)
    requires ServersOk(cfg, s) && OneLess(s, s', i, c) && OthersKept(s, s', i)
    requires i in s'.pool ==> ServerOk(cfg, i, s'.pool[i], OutOf(s', i), LoggedOf(s', i))
    ensures ServersOk(cfg, s')
  {
    forall j | j in s'.pool ensures ServerOk(cfg, j, s'.pool[j], OutOf(s', j), LoggedOf(s', j)) {
      if j != i {
        ServerFrame(cfg, s, s', j);
      }
    }
  }

  /* ---- jobs and results ------------------------------------------------------------------ */

  /** Nothing out means no worker and no result. */
  lemma NothingOut(s: State, i: nat, c: nat)
    requires Out(s, i, c) == 0
    ensures forall k :: 0 <= k < |s.workers| ==> !(s.workers[k].srv == i && s.workers[k].check == c)
    ensures forall k :: 0 <= k < |s.results| ==> !(s.results[k].srv == i && s.results[k].check == c)
  {
    forall k | 0 <= k < |s.workers| ensures !(s.workers[k].srv == i && s.workers[k].check == c) {
      JobCountPositive(s.workers, k);
    }
    forall k | 0 <= k < |s.results| ensures !(s.results[k].srv == i && s.results[k].check == c) {
      ResultCountPositive(s.results, k);
    }
  }

  /** The query (srv, check) is judged the same in both states. */
  ghost predicate SameView(s: State, s': State, srv: nat, check: nat) {
    && s'.nextSlot == s.nextSlot
    && (srv in s'.pool ==> srv in s.pool && |s'.pool[srv].checks| == |s.pool[srv].checks|
                           && (check < |s.pool[srv].checks|
                               ==> s'.pool[srv].checks[check] == s.pool[srv].checks[check]))
    && (srv !in s'.pool ==> srv in s'.cancelled || (srv !in s.pool && srv !in s.cancelled))
  }

  lemma JobSame(cfg: Config, s: State, s': State, job: Job)
    requires JobOk(cfg, s, job) && SameView(s, s', job.srv, job.check)
    ensures JobOk(cfg, s', job)
  {
  }

  lemma ResultSame(cfg: Config, s: State, s': State, r: WorkerResult)
    requires ResultOk(cfg, s, r) && SameView(s, s', r.srv, r.check)
    ensures ResultOk(cfg, s', r)
  {
  }

  lemma CollectJobs(cfg: Config, s: State, s': State)
    requires JobsOk(cfg, s) && |s.results| > 0 && s'.workers == s.workers && s'.results == s.results[1..]
    requires forall k :: 0 <= k < |s'.workers| ==> SameView(s, s', s'.workers[k].srv, s'.workers[k].check)
    requires forall k :: 0 <= k < |s'.results| ==> SameView(s, s', s'.results[k].srv, s'.results[k].check)
    ensures JobsOk(cfg, s')
  {
    forall k | 0 <= k < |s'.workers| ensures JobOk(cfg, s', s'.workers[k]) {
      JobSame(cfg, s, s', s.workers[k]);
    }
    forall k | 0 <= k < |s'.results| ensures ResultOk(cfg, s', s'.results[k]) {
      assert s'.results[k] == s.results[k + 1];
      ResultSame(cfg, s, s', s.results[k + 1]);
    }
  }

  /* ---- a late result: its server has left the pool ------------------------------------------ */

  lemma LateCore(cfg: Config, s: State, s': State, res: WorkerResult)
    requires Core(cfg, s) && Collects(cfg, s, s', res) && res.srv !in s.pool
    ensures Core(cfg, s')
    ensures s'.pool == s.pool && s'.log == s.log
  {
    CollectCounts(cfg, s, s', res);
    FirstResultOk(cfg, s);
    CollectLate(cfg, s, s', res);
    CollectServers(cfg, s, s', res.srv, res.check);
    LessInFlight(cfg, s, s', res.srv, res.check);
    LateViews(cfg, s, s');
    CollectJobs(cfg, s, s');
    LateRecords(cfg, s, s');
  }

  lemma CollectLate(cfg: Config, s: State, s': State, res: WorkerResult)
    requires Collects(cfg, s, s', res) && res.srv !in s.pool
    ensures s' == s.(results := s'.results, inFlight := s'.inFlight)
  {
  }

  lemma LateViews(cfg: Config, s: State, s': State)
    requires JobsOk(cfg, s) && s' == s.(results := s'.results, inFlight := s'.inFlight)
    requires |s.results| > 0 && s'.results == s.results[1..]
    ensures forall k :: 0 <= k < |s'.workers| ==> SameView(s, s', s'.workers[k].srv, s'.workers[k].check)
    ensures forall k :: 0 <= k < |s'.results| ==> SameView(s, s', s'.results[k].srv, s'.results[k].check)
  {
    assert forall k :: 0 <= k < |s.workers| ==> JobOk(cfg, s, s.workers[k]);
    assert forall k :: 0 <= k < |s.results| ==> ResultOk(cfg, s, s.results[k]);
  }

  lemma LateRecords(cfg: Config, s: State, s': State)
    requires PoolOk(cfg, s) && LogOk(cfg, s) && ReportsOk(cfg, s) && AccountOk(cfg, s)
    requires s' == s.(results := s'.results, inFlight := s'.inFlight)
    ensures PoolOk(cfg, s') && LogOk(cfg, s') && ReportsOk(cfg, s') && AccountOk(cfg, s')
  {
  }

  /* ---- a result whose server goes on ----------------------------------------------------------- */

  function NewServerState(cfg: Config, s: State, res: WorkerResult): Server
    requires res.srv in s.pool && res.check < |s.pool[res.srv].checks|
  {
    Applied(s.pool[res.srv], res.check, res.reply, cfg.maxFailures)
  }

  ghost predicate GoesOn(cfg: Config, s: State, s': State, res: WorkerResult) {
    && res.srv in s.pool && res.check < |s.pool[res.srv].checks|
    && var srv' := NewServerState(cfg, s, res);
       && !Finished(srv')
       && s'.pool.Keys == s.pool.Keys && s'.pool[res.srv] == srv'
       && (forall j :: j in s.pool && j != res.srv ==> s'.pool[j] == s.pool[j])
       && s'.cancelled == s.cancelled && s'.reported == s.reported && s'.nextSlot == s.nextSlot
           && s'.dequeueIdx == s.dequeueIdx
       && s'.status == Counted(s.status, TotalDelta(s.pool[res.srv], res.check, res.reply, cfg.maxFailures))
  }

  lemma CollectGoesOn(cfg: Config, s: State, s': State, res: WorkerResult)
    requires Collects(cfg, s, s', res) && res.srv in s.pool && !Finished(NewServerState(cfg, s, res))
    ensures GoesOn(cfg, s, s', res)
  {
    assert s'.pool.Keys == s.pool.Keys;
  }

  lemma OnlyOneCheckChanges(srv: Server, c: nat, reply: Reply, maxFailures: int)
    requires c < |srv.checks|
    ensures var srv' := Applied(srv, c, reply, maxFailures);
            && |srv'.checks| == |srv.checks| && srv'.nextQueryAt == srv.nextQueryAt
            && forall d :: 0 <= d < |srv.checks| && d != c ==> srv'.checks[d] == srv.checks[d]
  {
  }

  lemma GoesOnViews(cfg: Config, s: State, s': State, res: WorkerResult)
    requires JobsOk(cfg, s) && GoesOn(cfg, s, s', res) && Out(s', res.srv, res.check) == 0
    requires s'.workers == s.workers && |s.results| > 0 && s'.results == s.results[1..]
    ensures forall k :: 0 <= k < |s'.workers| ==> SameView(s, s', s'.workers[k].srv, s'.workers[k].check)
    ensures forall k :: 0 <= k < |s'.results| ==> SameView(s, s', s'.results[k].srv, s'.results[k].check)
  {
    NothingOut(s', res.srv, res.check);
    OnlyOneCheckChanges(s.pool[res.srv], res.check, res.reply, cfg.maxFailures);
    forall k | 0 <= k < |s'.workers| ensures SameView(s, s', s'.workers[k].srv, s'.workers[k].check) {
      assert JobOk(cfg, s, s.workers[k]);
      ViewOfOther(cfg, s, s', res, s'.workers[k].srv, s'.workers[k].check);
    }
    forall k | 0 <= k < |s'.results| ensures SameView(s, s', s'.results[k].srv, s'.results[k].check) {
      assert ResultOk(cfg, s, s.results[k + 1]);
      ViewOfOther(cfg, s, s', res, s'.results[k].srv, s'.results[k].check);
    }
  }

  lemma ViewOfOther(cfg: Config, s: State, s': State, res: WorkerResult, srv: nat, check: nat)
    requires GoesOn(cfg, s, s', res) && !(srv == res.srv && check == res.check)
    requires srv in s.pool || srv in s.cancelled
    ensures SameView(s, s', srv, check)
  {
    OnlyOneCheckChanges(s.pool[res.srv], res.check, res.reply, cfg.maxFailures);
    assert srv in s.pool <==> srv in s.pool.Keys;
    assert srv in s'.pool <==> srv in s'.pool.Keys;
  }

  lemma GoesOnRecords(cfg: Config, s: State, s': State, res: WorkerResult)
    requires GoesOn(cfg, s, s', res) && s'.log == s.log && PoolOk(cfg, s) && LogOk(cfg, s) && ReportsOk(cfg, s)
    ensures PoolOk(cfg, s') && LogOk(cfg, s') && ReportsOk(cfg, s')
  {
    OnlyOneCheckChanges(s.pool[res.srv], res.check, res.reply, cfg.maxFailures);
    assert |s'.pool| == |s'.pool.Keys| == |s.pool.Keys| == |s.pool|;
    assert forall i: nat :: i in s'.pool <==> i in s'.pool.Keys;
    assert forall i: nat :: i in s.pool <==> i in s.pool.Keys;
  }

  /** One more check done, or one more planned: the books stay balanced. */
  lemma GoesOnAccount(cfg: Config, s: State, s': State, res: WorkerResult)
    requires GoesOn(cfg, s, s', res) && PoolOk(cfg, s) && AccountOk(cfg, s) && !s.pool[res.srv].disabled
    ensures AccountOk(cfg, s')
  {
    AppliedCounters(s.pool[res.srv], res.check, res.reply, cfg.maxFailures);
    SumChange(NumServers(cfg), LeftOf(cfg, s.pool, s.nextSlot), LeftOf(cfg, s'.pool, s'.nextSlot), res.srv);
  }

  lemma GoesOnCore(cfg: Config, s: State, s': State, res: WorkerResult)
    requires Core(cfg, s) && Collects(cfg, s, s', res) && res.srv in s.pool && !Finished(NewServerState(cfg, s, res))
    ensures Core(cfg, s')
    ensures s'.pool.Keys == s.pool.Keys && s'.log == s.log
  {
    CollectCounts(cfg, s, s', res);
    CollectGoesOn(cfg, s, s', res);
    CollectedServer(cfg, s, s', res);
    CollectServers(cfg, s, s', res.srv, res.check);
    LessInFlight(cfg, s, s', res.srv, res.check);
    GoesOnViews(cfg, s, s', res);
    CollectJobs(cfg, s, s');
    GoesOnRecords(cfg, s, s', res);
    assert ServerOk(cfg, res.srv, s.pool[res.srv], OutOf(s, res.srv), LoggedOf(s, res.srv));
    GoesOnAccount(cfg, s, s', res);
  }

  /* ---- a result that finishes its server ----------------------------------------------------------- */

  ghost predicate Ends(cfg: Config, s: State, s': State, res: WorkerResult) {
    && res.srv in s.pool && res.check < |s.pool[res.srv].checks|
    && var srv' := NewServerState(cfg, s, res);
       && Finished(srv')
       && s'.pool == s.pool - {res.srv} && s'.nextSlot == s.nextSlot && s'.dequeueIdx == s.dequeueIdx
       && s'.cancelled == (if srv'.disabled then s.cancelled + {res.srv} else s.cancelled)
       && s'.reported == s.reported + [res.srv]
       && s'.status == Reported(Counted(s.status,
           TotalDelta(s.pool[res.srv], res.check, res.reply, cfg.maxFailures)), srv')
  }

  lemma CollectEnds(cfg: Config, s: State, s': State, res: WorkerResult)
    requires Collects(cfg, s, s', res) && res.srv in s.pool && Finished(NewServerState(cfg, s, res))
    ensures Ends(cfg, s, s', res)
  {
  }

  /** The queries still out for a server that has just finished belong to a cancelled one. */
  lemma EndsViews(cfg: Config, s: State, s': State, res: WorkerResult)
    requires JobsOk(cfg, s) && Ends(cfg, s, s', res)
    requires s'.workers == s.workers && |s.results| > 0 && s'.results == s.results[1..]
    requires !NewServerState(cfg, s, res).disabled ==> forall d: nat :: d < NumChecks(cfg) ==> Out(s', res.srv, d) == 0
    ensures forall k :: 0 <= k < |s'.workers| ==> SameView(s, s', s'.workers[k].srv, s'.workers[k].check)
    ensures forall k :: 0 <= k < |s'.results| ==> SameView(s, s', s'.results[k].srv, s'.results[k].check)
  {
    forall k | 0 <= k < |s'.workers| ensures SameView(s, s', s'.workers[k].srv, s'.workers[k].check) {
      assert JobOk(cfg, s, s.workers[k]);
      JobIsOut(s', k);
      EndsView(cfg, s, s', res, s'.workers[k].srv, s'.workers[k].check);
    }
    forall k | 0 <= k < |s'.results| ensures SameView(s, s', s'.results[k].srv, s'.results[k].check) {
      assert ResultOk(cfg, s, s.results[k + 1]);
      ResultIsOut(s', k);
      EndsView(cfg, s, s', res, s'.results[k].srv, s'.results[k].check);
    }
  }

  lemma JobIsOut(s: State, k: nat)
    requires k < |s.workers|
    ensures Out(s, s.workers[k].srv, s.workers[k].check) > 0
  {
    JobCountPositive(s.workers, k);
  }

  lemma ResultIsOut(s: State, k: nat)
    requires k < |s.results|
    ensures Out(s, s.results[k].srv, s.results[k].check) > 0
  {
    ResultCountPositive(s.results, k);
  }

  lemma EndsView(cfg: Config, s: State, s': State, res: WorkerResult, srv: nat, check: nat)
    requires Ends(cfg, s, s', res) && check < NumChecks(cfg) && Out(s', srv, check) > 0
    requires srv in s.pool || srv in s.cancelled
    requires !NewServerState(cfg, s, res).disabled ==> forall d: nat :: d < NumChecks(cfg) ==> Out(s', res.srv, d) == 0
    ensures SameView(s, s', srv, check)
  {
  }

  lemma EndsPool(cfg: Config, s: State, s': State, res: WorkerResult)
    requires Ends(cfg, s, s', res) && s'.log == s.log && PoolOk(cfg, s) && LogOk(cfg, s)
    ensures PoolOk(cfg, s') && LogOk(cfg, s') && |s'.pool| == |s.pool| - 1
  {
    assert s'.pool.Keys == s.pool.Keys - {res.srv};
    assert |s'.pool| == |s'.pool.Keys| == |s.pool.Keys| - 1;
  }

  lemma ReportCounted(cfg: Config, reported: seq<nat>, st: Status, srv: Server, i: nat)
    requires i < NumServers(cfg) && srv.ip == cfg.servers[i]
    requires (srv.disabled <==> !Valid(cfg, i)) && (srv.failed > 0 <==> Mismatches(cfg, i) > 0)
    requires st.output == OutputOf(cfg, reported) && st.withFailures == WithMismatch(cfg, reported)
    ensures Reported(st, srv).output == OutputOf(cfg, reported + [i])
    ensures Reported(st, srv).withFailures == WithMismatch(cfg, reported + [i])
  {
    assert (reported + [i])[..|reported|] == reported;
  }

  lemma EndsReports(cfg: Config, s: State, s': State, res: WorkerResult)
    requires Ends(cfg, s, s', res) && PoolOk(cfg, s) && ReportsOk(cfg, s) && res.srv < NumServers(cfg)
    requires var srv' := NewServerState(cfg, s, res);
             && srv'.ip == cfg.servers[res.srv]
             && (srv'.disabled <==> !Valid(cfg, res.srv)) && (srv'.failed > 0 <==> Mismatches(cfg, res.srv) > 0)
    ensures ReportsOk(cfg, s')
  {
    var i := res.srv;
    var st := Counted(s.status, TotalDelta(s.pool[i], res.check, res.reply, cfg.maxFailures));
    ReportCounted(cfg, s.reported, st, NewServerState(cfg, s, res), i);
    assert i !in s.reported;
    forall j: nat ensures j in s'.reported <==> j == i || j in s.reported {
      assert j in s.reported + [i] <==> j in s.reported || j in [i];
    }
  }

  /** A dropped server takes its planned checks, in flight or not, out of the total. */
  lemma EndsAccount(cfg: Config, s: State, s': State, res: WorkerResult)
    requires Ends(cfg, s, s', res) && PoolOk(cfg, s) && AccountOk(cfg, s) && |s.pool[res.srv].checks| == NumChecks(cfg)
    requires !s.pool[res.srv].disabled
    ensures AccountOk(cfg, s')
  {
    AppliedCounters(s.pool[res.srv], res.check, res.reply, cfg.maxFailures);
    SumChange(NumServers(cfg), LeftOf(cfg, s.pool, s.nextSlot), LeftOf(cfg, s'.pool, s'.nextSlot), res.srv);
  }

  lemma EndsRecords(cfg: Config, s: State, s': State, res: WorkerResult)
    requires PoolOk(cfg, s) && ServersOk(cfg, s) && LogOk(cfg, s) && ReportsOk(cfg, s) && AccountOk(cfg, s)
    requires Ends(cfg, s, s', res) && s'.log == s.log
    requires AfterResult(cfg, s', res.srv, NewServerState(cfg, s, res))
    ensures PoolOk(cfg, s') && LogOk(cfg, s') && ReportsOk(cfg, s') && AccountOk(cfg, s')
  {
    EndsPool(cfg, s, s', res);
    EndsReports(cfg, s, s', res);
    assert ServerOk(cfg, res.srv, s.pool[res.srv], OutOf(s, res.srv), LoggedOf(s, res.srv));
    EndsAccount(cfg, s, s', res);
  }

  lemma EndsQueries(cfg: Config, s: State, s': State, res: WorkerResult)
    requires ServersOk(cfg, s) && JobsOk(cfg, s) && InFlightOk(cfg, s)
    requires Ends(cfg, s, s', res) && OneLess(s, s', res.srv, res.check) && res.check < NumChecks(cfg)
    requires AfterResult(cfg, s', res.srv, NewServerState(cfg, s, res))
    requires s'.workers == s.workers && |s.results| > 0 && s'.results == s.results[1..]
    requires s'.inFlight == Decremented(s.inFlight, res.srv)
    ensures ServersOk(cfg, s') && JobsOk(cfg, s') && InFlightOk(cfg, s')
  {
    CollectServers(cfg, s, s', res.srv, res.check);
    LessInFlight(cfg, s, s', res.srv, res.check);
    EndsViews(cfg, s, s', res);
    CollectJobs(cfg, s, s');
  }

  lemma EndsCore(cfg: Config, s: State, s': State, res: WorkerResult)
    requires Core(cfg, s) && Collects(cfg, s, s', res) && res.srv in s.pool && Finished(NewServerState(cfg, s, res))
    ensures Core(cfg, s')
    ensures s'.log == s.log
  {
    CollectCounts(cfg, s, s', res);
    CollectEnds(cfg, s, s', res);
    CollectedServer(cfg, s, s', res);
    EndsQueries(cfg, s, s', res);
    EndsRecords(cfg, s, s', res);
  }

  lemma CollectCore(cfg: Config, s: State, s': State, res: WorkerResult)
    requires Core(cfg, s) && Collects(cfg, s, s', res)
    ensures Core(cfg, s') && s'.log == s.log
  {
    if res.srv !in s.pool {
      LateCore(cfg, s, s', res);
    } else if !Finished(NewServerState(cfg, s, res)) {
      GoesOnCore(cfg, s, s', res);
    } else {
      EndsCore(cfg, s, s', res);
    }
  }
}
