/** The scheduler, its workers, the refiller and the clock as a step protocol.
    One step is one indivisible action of one goroutine; any interleaving is a run. */
module Protocol {
  import opened Answers
  import opened ServerState
  import opened Bucket
  import opened Sums

  /** The settings of one DNSanitize call. `oracle(server, check, attempt)` stands for
      the network: an arbitrary reply for every query that could be made. */
  datatype Config = Config(
    servers: seq<string>, template: seq<TemplateEntry>,
    maxAttempts: nat, maxFailures: int, maxPool: nat, maxThreads: nat,
    limits: Limits, interval: nat,
    oracle: (nat, nat, nat) -> Reply)

  /** What the option checks and the parsers of lists and templates establish. */
  ghost predicate GoodConfig(cfg: Config) {
    && |cfg.servers| >= 1 && |cfg.template| >= 1
    && cfg.maxAttempts >= 1 && cfg.maxPool >= 1 && cfg.maxThreads >= 1
    && cfg.limits.max == cfg.limits.refill >= 1
  }

  function NumServers(cfg: Config): nat { |cfg.servers| }
  function NumChecks(cfg: Config): nat { |cfg.template| }

  /** The capacity of both channels. */
  function Cap(cfg: Config): nat {
    var all := NumServers(cfg) * NumChecks(cfg);
    if cfg.maxThreads <= all then cfg.maxThreads else all
  }

  /** A running worker; `attempt` counts the earlier attempts at this check. */
  datatype Job = Job(srv: nat, check: nat, attempt: nat)
  datatype WorkerResult = WorkerResult(srv: nat, check: nat, reply: Reply)

  /** One line of the record of dispatched queries. */
  datatype Dispatch = Dispatch(srv: nat, check: nat, attempt: int, time: int)

  /** Where the scheduler goroutine stands. During a pass: the servers the map range
      has not yet yielded, the server a token was just consumed for, and the locals
      poolCanGrow, freeJobs and now. */
  datatype Phase =
    | Collecting
    | Polled
    | Scheduling(pass: nat, todo: set<nat>, held: Option<nat>, canGrow: bool, free: int, now: int)
    | PassesOver(canGrow: bool, free: int)
    | Loading(canGrow: bool, free: int)
    | Waiting

  datatype State = State(
    phase: Phase,
    clock: int,
    tokens: nat, refills: nat,
    workers: seq<Job>,           // started, result not yet sent; each holds a job slot
    unreleased: nat,             // result sent, job slot still held
    results: seq<WorkerResult>,  // the buffered Results channel
    pool: map<nat, Server>, dequeueIdx: nat, nextSlot: nat,
    inFlight: map<nat, nat>,
    cancelled: set<nat>,         // servers whose context is cancelled
    status: Status,
    reported: seq<nat>,          // ids passed to ReportFinishedServer, in order
    log: seq<Dispatch>)

  function BusyJobs(s: State): nat { |s.workers| + s.unreleased }

  function NumPending(cfg: Config, s: State): int { NumServers(cfg) - s.dequeueIdx }

  function InFlight(s: State, i: nat): nat {
    if i in s.inFlight then s.inFlight[i] else 0
  }

  predicate CanGrow(cfg: Config, s: State) {
    |s.pool| != cfg.maxPool && NumPending(cfg, s) > 0
  }

  predicate IsDrained(cfg: Config, s: State) {
    |s.pool| == 0 && NumPending(cfg, s) == 0
  }

  ghost predicate Init(cfg: Config, s: State) {
    && s.phase == Collecting && s.clock >= 0
    && s.tokens == cfg.limits.max && s.refills == 0
    && s.workers == [] && s.unreleased == 0 && s.results == []
    && s.pool == map[] && s.dequeueIdx == 0 && s.nextSlot == 0
    && s.inFlight == map[] && s.cancelled == {}
    && s.status == Status(0, 0, 0, NumServers(cfg) * NumChecks(cfg), 0, [])
    && s.reported == [] && s.log == []
  }

  /* ---- the other goroutines -------------------------------------------------- */

  /** Worker i finishes its query and sends. Only a cancelled context may make the
      answer differ from the oracle's. */
  ghost predicate Send(cfg: Config, s: State, s': State, i: nat, reply: Reply) {
    && i < |s.workers| && |s.results| < Cap(cfg)
    && var job := s.workers[i];
       && (job.srv !in s.cancelled ==> reply == cfg.oracle(job.srv, job.check, job.attempt))
       && s' == s.(workers := Drop(s.workers, i), unreleased := s.unreleased + 1,
                   results := s.results + [WorkerResult(job.srv, job.check, reply)])
  }

  /** A worker that has sent gives its job slot back. */
  ghost predicate Release(s: State, s': State) {
    s.unreleased > 0 && s' == s.(unreleased := s.unreleased - 1)
  }

  ghost predicate RefillTick(cfg: Config, s: State, s': State) {
    s' == s.(tokens := Apply(cfg.limits, Refill, s.tokens), refills := s.refills + 1)
  }

  ghost predicate ClockTick(s: State, s': State, time: int) {
    time >= s.clock && s' == s.(clock := time)
  }

  /* ---- the scheduler: collection ----------------------------------------------- */

  function Decremented(m: map<nat, nat>, i: nat): map<nat, nat> {
    if i in m && m[i] > 1 then m[i := m[i] - 1] else m - {i}
  }

  /** The effect of one received result. */
  function Collected(cfg: Config, s: State, res: WorkerResult): State
    requires res.srv in s.pool ==> res.check < |s.pool[res.srv].checks|
  {
    var s1 := s.(results := s.results[if |s.results| > 0 then 1 else 0..],
        inFlight := Decremented(s.inFlight, res.srv));
    if res.srv !in s.pool then s1
    else
      var srv := s.pool[res.srv];
      var srv' := Applied(srv, res.check, res.reply, cfg.maxFailures);
      var st := Counted(s.status, TotalDelta(srv, res.check, res.reply, cfg.maxFailures));
      var cancelled' := if srv'.disabled then s.cancelled + {res.srv} else s.cancelled;
      if Finished(srv') then
        s1.(pool := s.pool - {res.srv}, status := Reported(st, srv'), cancelled := cancelled',
            reported := s.reported + [res.srv])
      else
        s1.(pool := s.pool[res.srv := srv'], status := st, cancelled := cancelled')
  }

  ghost predicate Collect(cfg: Config, s: State, s': State) {
    && s.phase == Collecting && |s.results| > 0
    && var res := s.results[0];
       (res.srv in s.pool ==> res.check < |s.pool[res.srv].checks|) && s' == Collected(cfg, s, res)
  }

  /** The collection loop finds the channel empty. */
  ghost predicate EmptySeen(s: State, s': State) {
    s.phase == Collecting && s.results == [] && s' == s.(phase := Polled)
  }

  /* ---- the scheduler: dispatch ---------------------------------------------------- */

  /** Entering pass number `pass`, or leaving the pass loop. */
  function EnterPass(pass: nat, pool: map<nat, Server>, canGrow: bool, free: int, now: int): Phase {
    if pass < 2 && free > 0 && !(pass == 1 && canGrow)
    then Scheduling(pass, pool.Keys, None, canGrow, free, now)
    else PassesOver(canGrow, free)
  }

  ghost predicate BeginPasses(cfg: Config, s: State, s': State) {
    && s.phase == Polled
    && s' == s.(phase := EnterPass(0, s.pool, CanGrow(cfg, s), Cap(cfg) - BusyJobs(s), s.clock))
  }

  /** The conditions under which a pass skips a server before asking for a token. */
  predicate Skips(s: State, i: nat)
    requires s.phase.Scheduling? && i in s.pool
  {
    || (s.phase.pass == 0 && InFlight(s, i) != 0)
    || (s.phase.pass == 1 && InFlight(s, i) == 0)
    || |s.pool[i].pending| == 0
    || s.pool[i].nextQueryAt > s.phase.now
  }

  /** The map range yields server i: it is skipped, or finds no token, or takes one. */
  ghost predicate Visit(s: State, s': State, i: nat) {
    && s.phase.Scheduling? && s.phase.held == None && i in s.phase.todo && i in s.pool
    && var phase' := s.phase.(todo := s.phase.todo - {i});
       if Skips(s, i) || s.tokens == 0 then s' == s.(phase := phase')
       else s' == s.(phase := phase'.(held := Some(i)), tokens := s.tokens - 1)
  }

  /** The query that would be dispatched to server i now. */
  function NextJob(cfg: Config, s: State, i: nat): Job
    requires i in s.pool && |s.pool[i].pending| > 0 && s.pool[i].pending[0] < |s.pool[i].checks|
  {
    var c := s.pool[i].pending[0];
    var done := cfg.maxAttempts - s.pool[i].checks[c].attemptsLeft;
    Job(i, c, if done >= 0 then done else 0)
  }

  /** The server once its front check is on its way and the next one due at `at`. */
  function FrontTaken(srv: Server, at: int): Server
    requires |srv.pending| > 0
  {
    srv.(pending := srv.pending[1..], nextQueryAt := at)
  }

  function Dispatched(cfg: Config, s: State, i: nat): State
    requires s.phase.Scheduling? && i in s.pool && |s.pool[i].pending| > 0
    requires s.pool[i].pending[0] < |s.pool[i].checks|
  {
    var job := NextJob(cfg, s, i);
    var now := s.phase.now;
    s.(phase := s.phase.(held := None, free := s.phase.free - 1),
       inFlight := s.inFlight[i := InFlight(s, i) + 1],
       pool := s.pool[i := FrontTaken(s.pool[i], now + cfg.interval)],
       workers := s.workers + [job],
       log := s.log + [Dispatch(i, job.check, job.attempt, now)])
  }

  /** A token is in hand: dispatch if a job slot is free, else give the token back. */
  ghost predicate Place(cfg: Config, s: State, s': State) {
    && s.phase.Scheduling? && s.phase.held.Some?
    && var i := s.phase.held.value;
       && i in s.pool && |s.pool[i].pending| > 0 && s.pool[i].pending[0] < |s.pool[i].checks|
       && if BusyJobs(s) < Cap(cfg) then s' == Dispatched(cfg, s, i)
          else s' == s.(phase := s.phase.(held := None), tokens := Apply(cfg.limits, GiveBack, s.tokens))
  }

  ghost predicate EndPass(s: State, s': State) {
    && s.phase.Scheduling? && s.phase.held == None && s.phase.todo == {}
    && s' == s.(phase := EnterPass(s.phase.pass + 1, s.pool, s.phase.canGrow, s.phase.free, s.phase.now))
  }

  /* ---- the scheduler: termination test, loading ------------------------------------- */

  ghost predicate TestDrained(cfg: Config, s: State, s': State) {
    && s.phase.PassesOver?
    && s' == s.(phase := if IsDrained(cfg, s) then Waiting else Loading(s.phase.canGrow, s.phase.free))
  }

  /** The loop of LoadN: at most n more servers. */
  function LoadedN(cfg: Config, s: State, n: nat): State
    decreases n
  {
    if n == 0 || |s.pool| == cfg.maxPool || NumPending(cfg, s) <= 0 then s
    else LoadedN(cfg, LoadedOne(cfg, s), n - 1)
  }

  function LoadedOne(cfg: Config, s: State): State
    requires s.dequeueIdx < NumServers(cfg)
  {
    s.(pool := s.pool[s.nextSlot := NewServer(cfg.servers[s.dequeueIdx], cfg.template, cfg.maxAttempts)],
       dequeueIdx := s.dequeueIdx + 1, nextSlot := s.nextSlot + 1)
  }

  /** How many servers this round asks LoadN for. */
  function Budget(s: State): int
    requires s.phase.Loading?
  {
    var least := if s.tokens <= s.phase.free then s.tokens else s.phase.free;
    if s.phase.canGrow && s.phase.free != 0 && least > 0 then least else 0
  }

  ghost predicate Load(cfg: Config, s: State, s': State) {
    && s.phase.Loading?
    && s' == LoadedN(cfg, s, Budget(s)).(phase := Collecting)
  }

  /* ---- runs ----------------------------------------------------------------------- */

  ghost predicate WorkerMove(cfg: Config, s: State, s': State) {
    || (exists i: nat, reply: Reply :: Send(cfg, s, s', i, reply))
    || Release(s, s')
  }

  ghost predicate OtherMove(cfg: Config, s: State, s': State) {
    || WorkerMove(cfg, s, s')
    || RefillTick(cfg, s, s')
    || (exists time: int :: ClockTick(s, s', time))
  }

  ghost predicate SchedulerMove(cfg: Config, s: State, s': State) {
    || Collect(cfg, s, s') || EmptySeen(s, s') || BeginPasses(cfg, s, s')
    || (exists i: nat :: Visit(s, s', i)) || Place(cfg, s, s') || EndPass(s, s')
    || TestDrained(cfg, s, s') || Load(cfg, s, s')
  }

  ghost predicate Next(cfg: Config, s: State, s': State) {
    OtherMove(cfg, s, s') || SchedulerMove(cfg, s, s')
  }

  ghost predicate StepInto(cfg: Config, run: seq<State>, i: nat)
    requires 0 < i < |run|
  {
    Next(cfg, run[i - 1], run[i])
  }

  ghost predicate IsRun(cfg: Config, run: seq<State>) {
    && |run| >= 1
    && forall i: nat :: 0 < i < |run| ==> StepInto(cfg, run, i)
  }

  /** A run of the program, from its start. */
  ghost predicate Behaviour(cfg: Config, run: seq<State>) {
    GoodConfig(cfg) && IsRun(cfg, run) && Init(cfg, run[0])
  }

  /** The final Wait has returned: the scheduler has left its loop and every worker
      has given its slot back. */
  ghost predicate Ended(s: State) {
    s.phase == Waiting && s.workers == [] && s.unreleased == 0
  }
}
