/** What every reachable state of the protocol satisfies. */
module Invariant {
  import opened ServerState
  import opened Sums
  import opened Protocol
  import opened Checks

  /* ---- counting outstanding queries and dispatches ------------------------------- */

  function JobCount(ws: seq<Job>, i: nat, c: nat): nat {
    if ws == [] then 0
    else JobCount(ws[..|ws| - 1], i, c) + (if ws[|ws| - 1].srv == i && ws[|ws| - 1].check == c then 1 else 0)
  }

  function ResultCount(rs: seq<WorkerResult>, i: nat, c: nat): nat {
    if rs == [] then 0
    else ResultCount(rs[..|rs| - 1], i, c) + (if rs[|rs| - 1].srv == i && rs[|rs| - 1].check == c then 1 else 0)
  }

  function LogCount(log: seq<Dispatch>, i: nat, c: nat): nat {
    if log == [] then 0
    else LogCount(log[..|log| - 1], i, c) + (if log[|log| - 1].srv == i && log[|log| - 1].check == c then 1 else 0)
  }

  lemma JobCountAdd(ws: seq<Job>, job: Job, i: nat, c: nat)
    ensures JobCount(ws + [job], i, c) == JobCount(ws, i, c) + Bit(job.srv == i && job.check == c)
  {
    assert (ws + [job])[..|ws|] == ws;
  }

  lemma ResultCountAdd(rs: seq<WorkerResult>, r: WorkerResult, i: nat, c: nat)
    ensures ResultCount(rs + [r], i, c) == ResultCount(rs, i, c) + Bit(r.srv == i && r.check == c)
  {
    assert (rs + [r])[..|rs|] == rs;
  }

  lemma LogCountAdd(log: seq<Dispatch>, d: Dispatch, i: nat, c: nat)
    ensures LogCount(log + [d], i, c) == LogCount(log, i, c) + Bit(d.srv == i && d.check == c)
  {
    assert (log + [d])[..|log|] == log;
  }

  lemma {:induction false} JobCountDrop(ws: seq<Job>, k: nat, i: nat, c: nat)
    requires k < |ws|
    ensures JobCount(Drop(ws, k), i, c) == JobCount(ws, i, c) - Bit(ws[k].srv == i && ws[k].check == c)
    decreases |ws|
  {
    var n := |ws| - 1;
    if k == n {
      assert Drop(ws, k) == ws[..n];
    } else {
      JobCountDrop(ws[..n], k, i, c);
      assert Drop(ws, k) == Drop(ws[..n], k) + [ws[n]];
      JobCountAdd(Drop(ws[..n], k), ws[n], i, c);
    }
  }

  lemma {:induction false} ResultCountTail(rs: seq<WorkerResult>, i: nat, c: nat)
    requires |rs| > 0
    ensures ResultCount(rs[1..], i, c) == ResultCount(rs, i, c) - Bit(rs[0].srv == i && rs[0].check == c)
    decreases |rs|
  {
    var n := |rs| - 1;
    if n > 0 {
      ResultCountTail(rs[..n], i, c);
      assert rs[1..] == rs[..n][1..] + [rs[n]];
      ResultCountAdd(rs[..n][1..], rs[n], i, c);
    }
  }

  lemma {:induction false} JobCountPositive(ws: seq<Job>, k: nat)
    requires k < |ws|
    ensures JobCount(ws, ws[k].srv, ws[k].check) > 0
    decreases |ws|
  {
    if k < |ws| - 1 { JobCountPositive(ws[..|ws| - 1], k); }
  }

  lemma {:induction false} ResultCountPositive(rs: seq<WorkerResult>, k: nat)
    requires k < |rs|
    ensures ResultCount(rs, rs[k].srv, rs[k].check) > 0
    decreases |rs|
  {
    if k < |rs| - 1 { ResultCountPositive(rs[..|rs| - 1], k); }
  }

  lemma {:induction false} NoneForServer(s: State, i: nat, c: nat)
    requires forall k :: 0 <= k < |s.workers| ==> s.workers[k].srv != i
    requires forall k :: 0 <= k < |s.results| ==> s.results[k].srv != i
    ensures Out(s, i, c) == 0
    decreases |s.workers| + |s.results|
  {
    if |s.workers| > 0 {
      NoneForServer(s.(workers := s.workers[..|s.workers| - 1]), i, c);
    } else if |s.results| > 0 {
      NoneForServer(s.(results := s.results[..|s.results| - 1]), i, c);
    }
  }

  lemma {:induction false} NeverDispatched(log: seq<Dispatch>, i: nat, c: nat)
    requires forall k :: 0 <= k < |log| ==> log[k].srv != i
    ensures LogCount(log, i, c) == 0
  {
    if |log| > 0 { NeverDispatched(log[..|log| - 1], i, c); }
  }

  /** Queries to server i for check c that are with a worker or in the channel. */
  function Out(s: State, i: nat, c: nat): nat {
    JobCount(s.workers, i, c) + ResultCount(s.results, i, c)
  }

  ghost function OutOf(s: State, i: nat): nat -> int {
    (c: nat) => Out(s, i, c)
  }

  ghost function LoggedOf(s: State, i: nat): nat -> int {
    (c: nat) => LogCount(s.log, i, c)
  }

  /* ---- the parts of the invariant --------------------------------------------------- */

  /** Slot ids follow the queue and are never reused; the pool is bounded; a server in
      the pool is not cancelled. */
  ghost predicate PoolOk(cfg: Config, s: State) {
    && s.nextSlot == s.dequeueIdx <= NumServers(cfg)
    && |s.pool| <= cfg.maxPool
    && forall i :: i in s.pool ==> i < s.nextSlot && i !in s.cancelled
  }

  /** No finished server is in the pool, and every check of a loaded one is in place. */
  ghost predicate ServersOk(cfg: Config, s: State) {
    forall i :: i in s.pool ==> ServerOk(cfg, i, s.pool[i], OutOf(s, i), LoggedOf(s, i))
  }

  /** An outstanding query knows which attempt it is; a query of a server that left
      the pool belongs to a cancelled one. */
  ghost predicate JobOk(cfg: Config, s: State, job: Job) {
    && job.check < NumChecks(cfg) && job.srv < s.nextSlot
    && if job.srv in s.pool
       then job.check < |s.pool[job.srv].checks| && job.attempt == Attempted(cfg, s.pool[job.srv].checks[job.check])
       else job.srv in s.cancelled
  }

  ghost predicate ResultOk(cfg: Config, s: State, r: WorkerResult) {
    && r.check < NumChecks(cfg) && r.srv < s.nextSlot
    && if r.srv in s.pool
       then r.check < |s.pool[r.srv].checks| && 0 <= Attempted(cfg, s.pool[r.srv].checks[r.check])
            && r.reply == cfg.oracle(r.srv, r.check, Attempted(cfg, s.pool[r.srv].checks[r.check]))
       else r.srv in s.cancelled
  }

  ghost predicate JobsOk(cfg: Config, s: State) {
    && (forall k :: 0 <= k < |s.workers| ==> JobOk(cfg, s, s.workers[k]))
    && (forall k :: 0 <= k < |s.results| ==> ResultOk(cfg, s, s.results[k]))
  }

  /** The inFlight map counts the dispatched but uncollected queries of each server,
      and holds a key only while the count is positive. */
  ghost predicate InFlightOk(cfg: Config, s: State) {
    && (forall i: nat :: InFlight(s, i) == Sum(NumChecks(cfg), OutOf(s, i)))
    && (forall i :: i in s.inFlight ==> s.inFlight[i] > 0)
  }

  /** No check is ever queried more than maxAttempts times, and dispatches to one server
      are at least `interval` apart. */
  ghost predicate LogOk(cfg: Config, s: State) {
    && (forall k :: 0 <= k < |s.log| ==> s.log[k].srv < s.nextSlot && s.log[k].check < NumChecks(cfg))
    && (forall i: nat, c: nat :: LogCount(s.log, i, c) <= cfg.maxAttempts)
    && Spaced(cfg, s.log)
    && (forall k :: 0 <= k < |s.log| && s.log[k].srv in s.pool ==>
          s.log[k].time + cfg.interval <= s.pool[s.log[k].srv].nextQueryAt)
  }

  ghost predicate Spaced(cfg: Config, log: seq<Dispatch>) {
    forall a, b :: 0 <= a < b < |log| && log[a].srv == log[b].srv ==> log[a].time + cfg.interval <= log[b].time
  }

  /** The lines written for the servers reported so far. */
  ghost function OutputOf(cfg: Config, reported: seq<nat>): seq<string> {
    if reported == [] then []
    else
      var i := reported[|reported| - 1];
      OutputOf(cfg, reported[..|reported| - 1])
        + (if i < NumServers(cfg) && Valid(cfg, i) then [cfg.servers[i]] else [])
  }

  ghost function WithMismatch(cfg: Config, reported: seq<nat>): int {
    if reported == [] then 0
    else WithMismatch(cfg, reported[..|reported| - 1]) + Bit(Mismatches(cfg, reported[|reported| - 1]) > 0)
  }

  /** Every server that has left the pool was reported once, with its sequential
      verdict; the cancelled ones are those found invalid. */
  ghost predicate ReportsOk(cfg: Config, s: State) {
    && (forall a, b :: 0 <= a < b < |s.reported| ==> s.reported[a] != s.reported[b])
    && (forall i: nat :: i in s.reported <==> i < s.nextSlot && i !in s.pool)
    && (forall i: nat :: i in s.cancelled <==> i in s.reported && !Valid(cfg, i))
    && s.status.output == OutputOf(cfg, s.reported)
    && s.status.valid == |s.status.output|
    && s.status.invalid == |s.reported| - |s.status.output|
    && s.status.withFailures == WithMismatch(cfg, s.reported)
  }

  /** The checks of server i still to be done: all of them while it is in the queue. */
  ghost function LeftOf(cfg: Config, pool: map<nat, Server>, nextSlot: nat): nat -> int {
    (i: nat) => if i >= nextSlot then NumChecks(cfg) else if i in pool then NumChecks(cfg) - pool[i].completed else 0
  }

  /** TotalChecks - DoneChecks is the work of the loaded servers plus the queue's. */
  ghost predicate AccountOk(cfg: Config, s: State) {
    s.status.total - s.status.done == Sum(NumServers(cfg), LeftOf(cfg, s.pool, s.nextSlot))
  }

  /** All that depends on the pool, the workers and the records. */
  ghost predicate Core(cfg: Config, s: State) {
    && PoolOk(cfg, s) && ServersOk(cfg, s) && JobsOk(cfg, s) && InFlightOk(cfg, s)
    && LogOk(cfg, s) && ReportsOk(cfg, s) && AccountOk(cfg, s)
  }

  /** Both channels are within capacity; and when the scheduler is past collecting with
      an empty pool, the buffer has room for every result still to come. */
  ghost predicate ChannelsOk(cfg: Config, s: State) {
    && BusyJobs(s) <= Cap(cfg) && |s.results| <= Cap(cfg)
    && (!s.phase.Collecting? && s.pool == map[] ==> |s.results| + |s.workers| <= Cap(cfg))
  }

  ghost predicate PhaseOk(s: State) {
    s.phase.Scheduling? ==>
      && s.phase.todo <= s.pool.Keys
      && (s.phase.held.Some? ==>
            var i := s.phase.held.value;
            i in s.pool && |s.pool[i].pending| > 0 && s.pool[i].nextQueryAt <= s.phase.now)
  }

  function Held(s: State): nat {
    if s.phase.Scheduling? && s.phase.held.Some? then 1 else 0
  }

  /** The request budget: a dispatched query has used up a token that was there at the
      start or came with a refill. */
  ghost predicate TokensOk(cfg: Config, s: State) {
    && s.tokens <= cfg.limits.max
    && s.tokens + |s.log| + Held(s) <= cfg.limits.max + s.refills * cfg.limits.refill
  }

  /** The scheduler leaves its loop only with everything processed. */
  ghost predicate WaitOk(cfg: Config, s: State) {
    s.phase == Waiting ==> IsDrained(cfg, s)
  }

  ghost predicate Inv(cfg: Config, s: State) {
    Core(cfg, s) && ChannelsOk(cfg, s) && PhaseOk(s) && TokensOk(cfg, s) && WaitOk(cfg, s)
  }

  /* ---- the start ---------------------------------------------------------------------- */

  lemma InitInFlight(cfg: Config, s: State)
    requires Init(cfg, s)
    ensures InFlightOk(cfg, s)
  {
    forall i: nat ensures InFlight(s, i) == Sum(NumChecks(cfg), OutOf(s, i)) {
      SumZero(NumChecks(cfg), OutOf(s, i));
    }
  }

  lemma InitRecords(cfg: Config, s: State)
    requires Init(cfg, s)
    ensures PoolOk(cfg, s) && ServersOk(cfg, s) && JobsOk(cfg, s) && LogOk(cfg, s) && ReportsOk(cfg, s)
  {
  }

  lemma InitInv(cfg: Config, s: State)
    requires GoodConfig(cfg) && Init(cfg, s)
    ensures Inv(cfg, s)
  {
    InitInFlight(cfg, s);
    InitRecords(cfg, s);
    SumBounds(NumServers(cfg), LeftOf(cfg, s.pool, s.nextSlot), NumChecks(cfg), NumChecks(cfg));
  }

  /* ---- steps that leave the records alone ------------------------------------------------ */

  /** At most the phase, the clock, the tokens and the held job slots differ. */
  ghost predicate SameCore(s: State, s': State) {
    s' == s.(phase := s'.phase, clock := s'.clock, tokens := s'.tokens, refills := s'.refills,
             unreleased := s'.unreleased)
  }

  lemma OutSame(s: State, s': State)
    requires s'.workers == s.workers && s'.results == s.results
    ensures forall i: nat, c: nat :: Out(s', i, c) == Out(s, i, c)
  {
  }

  /** Servers whose record, outstanding queries and dispatches did not change stay in order. */
  lemma ServerFrame(cfg: Config, s: State, s': State, i: nat)
    requires i in s.pool && i in s'.pool && s'.pool[i] == s.pool[i]
    requires ServerOk(cfg, i, s.pool[i], OutOf(s, i), LoggedOf(s, i))
    requires forall c: nat :: c < NumChecks(cfg) ==>
               Out(s', i, c) == Out(s, i, c) && LogCount(s'.log, i, c) == LogCount(s.log, i, c)
    ensures ServerOk(cfg, i, s'.pool[i], OutOf(s', i), LoggedOf(s', i))
  {
    ChecksFrame(cfg, i, s.pool[i], OutOf(s, i), LoggedOf(s, i), OutOf(s', i), LoggedOf(s', i));
  }

  lemma ServersFrame(cfg: Config, s: State, s': State)
    requires ServersOk(cfg, s) && s'.pool == s.pool && s'.log == s.log
    requires forall i: nat, c: nat :: Out(s', i, c) == Out(s, i, c)
    ensures ServersOk(cfg, s')
  {
    forall i | i in s'.pool ensures ServerOk(cfg, i, s'.pool[i], OutOf(s', i), LoggedOf(s', i)) {
      ServerFrame(cfg, s, s', i);
    }
  }

  lemma InFlightFrame(cfg: Config, s: State, s': State)
    requires InFlightOk(cfg, s) && s'.inFlight == s.inFlight
    requires forall i: nat, c: nat :: Out(s', i, c) == Out(s, i, c)
    ensures InFlightOk(cfg, s')
  {
    forall i: nat ensures InFlight(s', i) == Sum(NumChecks(cfg), OutOf(s', i)) {
      SumEqual(NumChecks(cfg), OutOf(s, i), OutOf(s', i));
    }
  }

  lemma JobsFrame(cfg: Config, s: State, s': State)
    requires JobsOk(cfg, s) && SameCore(s, s')
    ensures JobsOk(cfg, s')
  {
    assert forall k :: 0 <= k < |s.workers| ==> JobOk(cfg, s, s.workers[k]);
    assert forall k :: 0 <= k < |s.results| ==> ResultOk(cfg, s, s.results[k]);
  }

  lemma PoolFrame(cfg: Config, s: State, s': State)
    requires SameCore(s, s') && PoolOk(cfg, s)
    ensures PoolOk(cfg, s')
  {
  }

  lemma LogFrame(cfg: Config, s: State, s': State)
    requires SameCore(s, s') && LogOk(cfg, s)
    ensures LogOk(cfg, s')
  {
  }

  lemma ReportsFrame(cfg: Config, s: State, s': State)
    requires SameCore(s, s') && ReportsOk(cfg, s)
    ensures ReportsOk(cfg, s')
  {
  }

  lemma AccountFrame(cfg: Config, s: State, s': State)
    requires SameCore(s, s') && AccountOk(cfg, s)
    ensures AccountOk(cfg, s')
  {
  }

  lemma CoreFrame(cfg: Config, s: State, s': State)
    requires Core(cfg, s) && SameCore(s, s')
    ensures Core(cfg, s')
  {
    OutSame(s, s');
    ServersFrame(cfg, s, s');
    InFlightFrame(cfg, s, s');
    JobsFrame(cfg, s, s');
    PoolFrame(cfg, s, s');
    LogFrame(cfg, s, s');
    ReportsFrame(cfg, s, s');
    AccountFrame(cfg, s, s');
  }
}
