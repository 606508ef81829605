/** What the turns of the scheduling loop do to slots, servers and pool, said without the
    functions that the loop is made of. */
module TurnRules {
  import opened Answers
  import opened ServerState
  import opened Protocol
  import opened Checks
  import opened Invariant
  import opened Safety
  import opened Liveness

  /* ---- the job slots ---------------------------------------------------------------- */

  /** The thread limit: never more workers and unreleased slots than maxThreads, nor than
      there are checks to do in all. */
  lemma JobLimit(cfg: Config, run: seq<State>, k: nat)
    requires Behaviour(cfg, run) && k < |run|
    ensures |run[k].workers| + run[k].unreleased <= cfg.maxThreads
    ensures |run[k].workers| + run[k].unreleased <= |cfg.servers| * |cfg.template|
    ensures |run[k].results| <= cfg.maxThreads
  {
    Always(cfg, run, k);
  }

  function Least(a: int, b: int): int {
    if a <= b then a else b
  }

  /** The number of job slots. */
  function Slots(cfg: Config): int {
    Least(cfg.maxThreads, |cfg.servers| * |cfg.template|)
  }

  predicate SlotsTaken(cfg: Config, s: State) {
    var busy := |s.workers| + s.unreleased;
    busy >= cfg.maxThreads || busy >= |cfg.servers| * |cfg.template|
  }

  ghost predicate HoldsTokenFor(s: State, i: nat) {
    s.phase.Scheduling? && s.phase.held == Some(i)
  }

  /** With a token in hand, a query is given up exactly when every slot is taken. */
  lemma RefusedWhenFull(cfg: Config, run: seq<State>, k: nat, i: nat)
    requires Behaviour(cfg, run) && k + 1 < |run|
    requires HoldsTokenFor(run[k], i) && !HoldsTokenFor(run[k + 1], i)
    ensures |run[k + 1].log| == |run[k].log| <==> SlotsTaken(cfg, run[k])
    ensures SlotsTaken(cfg, run[k]) ==> run[k + 1].workers == run[k].workers && run[k + 1].pool == run[k].pool
  {
    assert StepInto(cfg, run, k + 1);
    HeldIsPlaced(cfg, run[k], run[k + 1], i);
  }

  lemma HeldIsPlaced(cfg: Config, s: State, s': State, i: nat)
    requires Next(cfg, s, s') && HoldsTokenFor(s, i) && !HoldsTokenFor(s', i)
    ensures Place(cfg, s, s')
  {
    if OtherMove(cfg, s, s') {
      OtherKeepsPhase(cfg, s, s');
    }
  }

  lemma OtherKeepsPhase(cfg: Config, s: State, s': State)
    requires OtherMove(cfg, s, s')
    ensures s'.phase == s.phase && s'.pool == s.pool && s'.inFlight == s.inFlight && s'.log == s.log
    ensures s'.dequeueIdx == s.dequeueIdx && BusyJobs(s') <= BusyJobs(s)
  {
  }

  /* ---- one dispatch ------------------------------------------------------------------- */

  ghost predicate Dispatches(s: State, s': State) {
    |s'.log| > |s.log|
  }

  ghost predicate DispatchesTo(s: State, s': State, i: nat) {
    Dispatches(s, s') && s'.log[|s'.log| - 1].srv == i
  }

  lemma DispatchIsPlace(cfg: Config, s: State, s': State)
    requires Next(cfg, s, s') && Dispatches(s, s')
    ensures Place(cfg, s, s') && BusyJobs(s) < Cap(cfg) && s' == Dispatched(cfg, s, s.phase.held.value)
  {
    if OtherMove(cfg, s, s') {
      OtherKeepsPhase(cfg, s, s');
    } else if Load(cfg, s, s') {
      LoadWork(cfg, s, Budget(s));
    }
  }

  /** What one dispatch does: the front check of a loaded server that is due goes out with
      a new worker, and the server is due again an interval later. */
  ghost predicate SendsFront(cfg: Config, s: State, s': State, d: Dispatch, now: int) {
    && s'.log == s.log + [d] && d.time == now
    && d.srv in s.pool && |s.pool[d.srv].pending| > 0 && d.check == s.pool[d.srv].pending[0]
    && s.pool[d.srv].nextQueryAt <= now
    && d.check < |s.pool[d.srv].checks|
    && d.attempt == cfg.maxAttempts - s.pool[d.srv].checks[d.check].attemptsLeft >= 0
    && s'.workers == s.workers + [Job(d.srv, d.check, d.attempt)]
    && s'.pool.Keys == s.pool.Keys
    && (forall e :: e in s.pool && e != d.srv ==> s'.pool[e] == s.pool[e])
    && s'.pool[d.srv] ==
         s.pool[d.srv].(pending := s.pool[d.srv].pending[1..], nextQueryAt := now + cfg.interval)
    && (forall e: nat :: InFlight(s', e) == InFlight(s, e) + if e == d.srv then 1 else 0)
  }

  predicate CanSendFront(cfg: Config, s: State, i: nat)
    requires s.phase.Scheduling?
  {
    && i in s.pool && |s.pool[i].pending| > 0 && s.pool[i].pending[0] < |s.pool[i].checks|
    && 0 <= cfg.maxAttempts - s.pool[i].checks[s.pool[i].pending[0]].attemptsLeft
    && s.pool[i].nextQueryAt <= s.phase.now
  }

  lemma DispatchedSends(cfg: Config, s: State, i: nat)
    requires s.phase.Scheduling? && CanSendFront(cfg, s, i)
    ensures var s' := Dispatched(cfg, s, i);
            && |s'.log| == |s.log| + 1 && s'.log[|s.log|].srv == i
            && SendsFront(cfg, s, s', s'.log[|s.log|], s.phase.now)
  {
  }

  /* ---- the turn a state belongs to ------------------------------------------------------ */

  /** Between the opening of the passes and the end of the turn. */
  predicate InTurn(s: State) {
    s.phase.Scheduling? || s.phase.PassesOver? || s.phase.Loading?
  }

  function Grows(s: State): bool
    requires InTurn(s)
  {
    s.phase.canGrow
  }

  function Free(s: State): int
    requires InTurn(s)
  {
    s.phase.free
  }

  /** The pool has room and the queue a server for it. */
  predicate HasRoom(cfg: Config, s: State) {
    |s.pool| != cfg.maxPool && s.dequeueIdx < |cfg.servers|
  }

  /** The turn of state s was opened in state b: what was read then is what the turn goes by. */
  ghost predicate OpenedIn(cfg: Config, b: State, s: State) {
    && b.phase == Polled && InTurn(s)
    && Grows(s) == HasRoom(cfg, b)
    && Free(s) == Slots(cfg) - BusyJobs(b) - (|s.log| - |b.log|)
    && (s.phase.Scheduling? ==> s.phase.now == b.clock)
    && s.dequeueIdx == b.dequeueIdx && s.pool.Keys == b.pool.Keys
  }

  lemma OtherInTurn(cfg: Config, b: State, s: State, s': State)
    requires OtherMove(cfg, s, s') && OpenedIn(cfg, b, s)
    ensures OpenedIn(cfg, b, s')
  {
    OtherKeepsPhase(cfg, s, s');
  }

  lemma PlaceInTurn(cfg: Config, b: State, s: State, s': State)
    requires Place(cfg, s, s') && OpenedIn(cfg, b, s)
    ensures OpenedIn(cfg, b, s')
  {
  }

  lemma VisitInTurn(cfg: Config, b: State, s: State, s': State, i: nat)
    requires Visit(s, s', i) && OpenedIn(cfg, b, s)
    ensures OpenedIn(cfg, b, s')
  {
  }

  lemma EndsInTurn(cfg: Config, b: State, s: State, s': State)
    requires EndPass(s, s') || TestDrained(cfg, s, s')
    requires OpenedIn(cfg, b, s) && InTurn(s')
    ensures OpenedIn(cfg, b, s')
  {
  }

  lemma OtherPhases(cfg: Config, s: State, s': State)
    requires InTurn(s) && InTurn(s')
    ensures !Collect(cfg, s, s') && !EmptySeen(s, s') && !BeginPasses(cfg, s, s') && !Load(cfg, s, s')
  {
  }

  lemma SchedulerInTurn(cfg: Config, b: State, s: State, s': State)
    requires SchedulerMove(cfg, s, s') && OpenedIn(cfg, b, s) && InTurn(s')
    ensures OpenedIn(cfg, b, s')
  {
    if Place(cfg, s, s') {
      PlaceInTurn(cfg, b, s, s');
    } else if i: nat :| Visit(s, s', i) {
      VisitInTurn(cfg, b, s, s', i);
    } else {
      OtherPhases(cfg, s, s');
      EndsInTurn(cfg, b, s, s');
    }
  }

  lemma TurnOpens(cfg: Config, s: State, s': State)
    requires Next(cfg, s, s') && !InTurn(s) && InTurn(s')
    ensures s.phase == Polled && OpenedIn(cfg, s, s')
  {
    if OtherMove(cfg, s, s') {
      OtherKeepsPhase(cfg, s, s');
    }
  }

  /** Every turn has its opening. */
  lemma {:induction false} Opening(cfg: Config, run: seq<State>, j: nat) returns (b: nat)
    requires Behaviour(cfg, run) && j < |run| && InTurn(run[j])
    ensures b < j && run[b].phase == Polled && OpenedIn(cfg, run[b], run[j])
    ensures forall m: nat :: b < m <= j ==> InTurn(run[m])
  {
    assert StepInto(cfg, run, j);
    if InTurn(run[j - 1]) {
      b := Opening(cfg, run, j - 1);
      if OtherMove(cfg, run[j - 1], run[j]) {
        OtherInTurn(cfg, run[b], run[j - 1], run[j]);
      } else {
        SchedulerInTurn(cfg, run[b], run[j - 1], run[j]);
      }
    } else {
      b := j - 1;
      TurnOpens(cfg, run[j - 1], run[j]);
    }
  }

  /** Every dispatch, in every run: the front check of a loaded server goes out, the clock
      being read when the turn was opened; and a slot was free for it. */
  lemma EveryDispatch(cfg: Config, run: seq<State>, k: nat) returns (b: nat)
    requires Behaviour(cfg, run) && k + 1 < |run| && Dispatches(run[k], run[k + 1])
    ensures b < k && run[b].phase == Polled && forall m: nat :: b < m <= k ==> InTurn(run[m])
    ensures |run[k + 1].log| == |run[k].log| + 1
    ensures SendsFront(cfg, run[k], run[k + 1], run[k + 1].log[|run[k].log|], run[b].clock)
    ensures !SlotsTaken(cfg, run[k])
  {
    assert StepInto(cfg, run, k + 1);
    DispatchIsPlace(cfg, run[k], run[k + 1]);
    b := Opening(cfg, run, k);
    HeldFits(cfg, run, k);
    DispatchedSends(cfg, run[k], run[k].phase.held.value);
  }

  lemma HeldFits(cfg: Config, run: seq<State>, k: nat)
    requires Behaviour(cfg, run) && k < |run| && run[k].phase.Scheduling? && run[k].phase.held.Some?
    ensures CanSendFront(cfg, run[k], run[k].phase.held.value)
  {
    PendingWhenHeld(cfg, run, k, run[k].phase.held.value);
    FrontInRange(cfg, run, k, run[k].phase.held.value);
    Always(cfg, run, k);
  }

  /* ---- idle servers first ------------------------------------------------------------------ */

  /** Whom a token is for: an idle server in the first pass, a busy one in the second, and
      that pass is made only if the pool could not grow. */
  ghost predicate HeldRule(s: State) {
    s.phase.Scheduling? ==>
      && s.phase.pass < 2 && (s.phase.pass == 1 ==> !s.phase.canGrow)
      && (s.phase.held.Some? ==> (s.phase.pass == 0 <==> InFlight(s, s.phase.held.value) == 0))
  }

  lemma HeldRuleKept(cfg: Config, s: State, s': State)
    requires Next(cfg, s, s') && HeldRule(s)
    ensures HeldRule(s')
  {
    if OtherMove(cfg, s, s') {
      OtherKeepsPhase(cfg, s, s');
    } else if i: nat :| Visit(s, s', i) {
    }
  }

  lemma HeldRuleAlways(cfg: Config, run: seq<State>, k: nat)
    requires Behaviour(cfg, run) && k < |run|
    ensures HeldRule(run[k])
  {
    var keep := (s: State) => HeldRule(s);
    forall s: State, s': State | keep(s) && Next(cfg, s, s') ensures keep(s') {
      HeldRuleKept(cfg, s, s');
    }
    RunKeeps(cfg, run, keep, 0, k);
  }

  /** A server with an outstanding query gets another one only in a turn whose pool could
      not grow when it was opened: it was full, or the queue was empty. */
  lemma BusyOnlyWhenFull(cfg: Config, run: seq<State>, k: nat, i: nat) returns (b: nat)
    requires Behaviour(cfg, run) && k + 1 < |run| && DispatchesTo(run[k], run[k + 1], i)
    requires i in run[k].inFlight
    ensures b < k && run[b].phase == Polled && forall m: nat :: b < m <= k ==> InTurn(run[m])
    ensures |run[b].pool| == cfg.maxPool || run[b].dequeueIdx == |cfg.servers|
  {
    assert StepInto(cfg, run, k + 1);
    DispatchIsPlace(cfg, run[k], run[k + 1]);
    b := Opening(cfg, run, k);
    HeldRuleAlways(cfg, run, k);
    FlightsCounted(cfg, run, k, i);
    NoRoom(cfg, run, b);
  }

  lemma FlightsCounted(cfg: Config, run: seq<State>, k: nat, i: nat)
    requires Behaviour(cfg, run) && k < |run| && i in run[k].inFlight
    ensures InFlight(run[k], i) > 0
  {
    Always(cfg, run, k);
  }

  lemma NoRoom(cfg: Config, run: seq<State>, k: nat)
    requires Behaviour(cfg, run) && k < |run|
    ensures HasRoom(cfg, run[k]) || |run[k].pool| == cfg.maxPool || run[k].dequeueIdx == |cfg.servers|
  {
    Always(cfg, run, k);
  }

  /* ---- a server between its queries ------------------------------------------------------ */

  /** The step dispatches to server i, or takes in a result of its. */
  ghost predicate Touches(s: State, s': State, i: nat) {
    DispatchesTo(s, s', i) || (|s'.results| < |s.results| && s.results[0].srv == i)
  }

  lemma {:induction false} LoadKeepsLoaded(cfg: Config, s: State, n: nat, i: nat)
    requires i in s.pool && i < s.nextSlot
    ensures var s' := LoadedN(cfg, s, n); i in s'.pool && s'.pool[i] == s.pool[i]
    decreases n
  {
    if n > 0 && CanGrow(cfg, s) {
      LoadKeepsLoaded(cfg, LoadedOne(cfg, s), n - 1, i);
    }
  }

  lemma UntouchedStays(cfg: Config, s: State, s': State, i: nat)
    requires Next(cfg, s, s') && i in s.pool && i < s.nextSlot && !Touches(s, s', i)
    ensures i in s'.pool && s'.pool[i] == s.pool[i]
  {
    if OtherMove(cfg, s, s') {
      OtherKeepsPhase(cfg, s, s');
    } else if Load(cfg, s, s') {
      LoadKeepsLoaded(cfg, s, Budget(s), i);
    }
  }

  lemma SlotGivenOut(cfg: Config, run: seq<State>, k: nat, i: nat)
    requires Behaviour(cfg, run) && k < |run| && i in run[k].pool
    ensures i < run[k].nextSlot
  {
    Always(cfg, run, k);
  }

  lemma {:induction false} UntouchedWhile(cfg: Config, run: seq<State>, j: nat, k: nat, i: nat)
    requires Behaviour(cfg, run) && j <= k < |run| && i in run[j].pool
    requires forall m: nat :: j <= m < k ==> !Touches(run[m], run[m + 1], i)
    ensures i in run[k].pool && run[k].pool[i] == run[j].pool[i]
    decreases k
  {
    if j < k {
      UntouchedWhile(cfg, run, j, k - 1, i);
      SlotGivenOut(cfg, run, k - 1, i);
      assert StepInto(cfg, run, k);
      UntouchedStays(cfg, run[k - 1], run[k], i);
    }
  }

  /** The result received is a mismatch worth another attempt, and one is left. */
  ghost predicate RetryReceived(s: State, s': State, i: nat, c: nat) {
    && |s.results| > 0 && s'.results == s.results[1..]
    && s.results[0].srv == i && s.results[0].check == c
    && i in s.pool && c < |s.pool[i].checks|
    && !s.results[0].reply.passed && s.results[0].reply.retry && s.pool[i].checks[c].attemptsLeft >= 2
  }

  lemma RetryTaken(cfg: Config, s: State, s': State, i: nat, c: nat)
    requires Next(cfg, s, s') && RetryReceived(s, s', i, c) && !Finished(s.pool[i])
    ensures i in s'.pool && |s'.pool[i].pending| > 0 && s'.pool[i].pending[0] == c
    ensures c < |s'.pool[i].checks| && s'.pool[i].checks[c].attemptsLeft == s.pool[i].checks[c].attemptsLeft - 1
  {
    ShorterIsCollect(cfg, s, s');
    AppliedMeans(s.pool[i], c, s.results[0].reply, cfg.maxFailures);
  }

  lemma LoadedUnfinished(cfg: Config, run: seq<State>, j: nat, i: nat)
    requires Behaviour(cfg, run) && j < |run| && i in run[j].pool
    ensures !Finished(run[j].pool[i])
  {
    Always(cfg, run, j);
    assert ServerOk(cfg, i, run[j].pool[i], OutOf(run[j], i), LoggedOf(run[j], i));
  }

  lemma RetryInRun(cfg: Config, run: seq<State>, j: nat, i: nat, c: nat)
    requires Behaviour(cfg, run) && j + 1 < |run| && RetryReceived(run[j], run[j + 1], i, c)
    ensures i in run[j + 1].pool
    ensures var srv := run[j + 1].pool[i];
            && |srv.pending| > 0 && srv.pending[0] == c && c < |srv.checks|
            && srv.checks[c].attemptsLeft == run[j].pool[i].checks[c].attemptsLeft - 1
  {
    assert StepInto(cfg, run, j + 1);
    LoadedUnfinished(cfg, run, j, i);
    RetryTaken(cfg, run[j], run[j + 1], i, c);
  }

  lemma FrontGoes(cfg: Config, run: seq<State>, k: nat, i: nat)
    requires Behaviour(cfg, run) && k + 1 < |run| && DispatchesTo(run[k], run[k + 1], i)
    ensures |run[k + 1].log| == |run[k].log| + 1 && i in run[k].pool && |run[k].pool[i].pending| > 0
    ensures var d, srv := run[k + 1].log[|run[k].log|], run[k].pool[i];
            && d.check == srv.pending[0] < |srv.checks|
            && d.attempt == cfg.maxAttempts - srv.checks[d.check].attemptsLeft
  {
    var b := EveryDispatch(cfg, run, k);
  }

  lemma ShorterIsCollect(cfg: Config, s: State, s': State)
    requires Next(cfg, s, s') && |s'.results| < |s.results|
    ensures Collect(cfg, s, s')
  {
    if Load(cfg, s, s') {
      LoadWork(cfg, s, Budget(s));
    }
  }

  /** A retry goes first: once a check has to be tried again, the next query to its server
      is for it, and is its next attempt. (Unless another result of the server is taken in
      meanwhile.) */
  lemma RetryGoesFirst(cfg: Config, run: seq<State>, j: nat, k: nat, i: nat, c: nat)
    requires Behaviour(cfg, run) && j < k && k + 1 < |run| && RetryReceived(run[j], run[j + 1], i, c)
    requires forall m: nat :: j < m < k ==> !Touches(run[m], run[m + 1], i)
    requires DispatchesTo(run[k], run[k + 1], i)
    ensures var d := run[k + 1].log[|run[k].log|];
            d.check == c && d.attempt == cfg.maxAttempts - run[j].pool[i].checks[c].attemptsLeft + 1
  {
    RetryInRun(cfg, run, j, i, c);
    UntouchedWhile(cfg, run, j + 1, k, i);
    FrontGoes(cfg, run, k, i);
  }

  /* ---- whoever can be served is ------------------------------------------------------------- */

  /** There is a token or one is in hand, and a slot is free. */
  ghost predicate Supplied(cfg: Config, s: State) {
    !SlotsTaken(cfg, s) && (s.tokens >= 1 || (s.phase.Scheduling? && s.phase.held.Some?))
  }

  /** Server i is loaded, has a check pending and its time has come. */
  predicate Waits(s: State, i: nat) {
    i in s.pool && |s.pool[i].pending| > 0 && s.pool[i].nextQueryAt <= s.clock
  }

  /** Server i can be served in the turn opened in b, in which so many queries go out: it
      is idle, or the pool cannot grow and that leaves a slot. */
  predicate CanBeServed(cfg: Config, b: State, i: nat, sent: int) {
    && Waits(b, i)
    && (InFlight(b, i) == 0 || (!HasRoom(cfg, b) && BusyJobs(b) + sent < Slots(cfg)))
  }

  /** Server i's visit is still to come, or it has the token. */
  ghost predicate ToBeServed(cfg: Config, b: State, s: State, i: nat) {
    && i in b.pool && i in s.pool && s.pool[i] == b.pool[i] && InFlight(s, i) == InFlight(b, i)
    && s.pool.Keys == b.pool.Keys && s.dequeueIdx == b.dequeueIdx && s.clock >= b.clock
    && match s.phase
       case Polled => s.log == b.log && BusyJobs(s) <= BusyJobs(b)
       case Scheduling(pass, todo, held, canGrow, free, now) =>
         && now >= b.clock && canGrow == HasRoom(cfg, b)
         && free >= Slots(cfg) - BusyJobs(b) - (|s.log| - |b.log|)
         && (i in todo || held == Some(i) || (pass == 0 && InFlight(s, i) > 0))
         && (pass == 0 || (pass == 1 && InFlight(s, i) > 0))
         && (held == Some(i) ==> (pass == 0 <==> InFlight(s, i) == 0))
       case _ => false
  }

  /** Since b a query has gone to server i. */
  ghost predicate ServedSince(b: State, s: State, i: nat) {
    exists k :: |b.log| <= k < |s.log| && s.log[k].srv == i
  }

  lemma LogStays(cfg: Config, s: State, s': State)
    requires Next(cfg, s, s')
    ensures s.log <= s'.log
  {
    if Load(cfg, s, s') {
      LoadWork(cfg, s, Budget(s));
    }
  }

  lemma {:induction false} LogOnlyGrows(cfg: Config, run: seq<State>, j: nat, k: nat)
    requires IsRun(cfg, run) && j <= k < |run|
    ensures run[j].log <= run[k].log
    decreases k
  {
    if j < k {
      LogOnlyGrows(cfg, run, j, k - 1);
      assert StepInto(cfg, run, k);
      LogStays(cfg, run[k - 1], run[k]);
    }
  }

  lemma OtherServes(cfg: Config, b: State, s: State, s': State, i: nat)
    requires OtherMove(cfg, s, s') && ToBeServed(cfg, b, s, i)
    ensures ToBeServed(cfg, b, s', i)
  {
    OtherKeepsPhase(cfg, s, s');
    ClockGoesOn(cfg, s, s');
  }

  lemma ClockGoesOn(cfg: Config, s: State, s': State)
    requires OtherMove(cfg, s, s')
    ensures s'.clock >= s.clock
  {
  }

  lemma BeginServes(cfg: Config, b: State, s: State, s': State, i: nat)
    requires BeginPasses(cfg, s, s') && ToBeServed(cfg, b, s, i) && Supplied(cfg, s)
    ensures ToBeServed(cfg, b, s', i)
  {
    assert |s.pool| == |s.pool.Keys| == |b.pool.Keys| == |b.pool|;
  }

  lemma VisitServes(cfg: Config, b: State, s: State, s': State, i: nat, e: nat)
    requires Visit(s, s', e) && ToBeServed(cfg, b, s, i) && Supplied(cfg, s) && Waits(b, i)
    ensures ToBeServed(cfg, b, s', i)
  {
  }

  lemma PlaceServes(cfg: Config, b: State, s: State, s': State, i: nat)
    requires Place(cfg, s, s') && ToBeServed(cfg, b, s, i) && Supplied(cfg, s) && b.log <= s.log
    ensures ServedSince(b, s', i) || ToBeServed(cfg, b, s', i)
  {
    var e := s.phase.held.value;
    if e == i {
      assert s'.log[|s.log|].srv == i;
    }
  }

  lemma EndServes(cfg: Config, b: State, s: State, s': State, i: nat, sent: int)
    requires EndPass(s, s') && ToBeServed(cfg, b, s, i) && CanBeServed(cfg, b, i, sent) && |s.log| - |b.log| <= sent
    ensures ToBeServed(cfg, b, s', i)
  {
  }

  lemma ServesOn(cfg: Config, b: State, s: State, s': State, i: nat, sent: int)
    requires Next(cfg, s, s') && ToBeServed(cfg, b, s, i) && Supplied(cfg, s) && b.log <= s.log
    requires CanBeServed(cfg, b, i, sent) && |s.log| - |b.log| <= sent
    ensures ServedSince(b, s', i) || ToBeServed(cfg, b, s', i)
  {
    if OtherMove(cfg, s, s') {
      OtherServes(cfg, b, s, s', i);
    } else if BeginPasses(cfg, s, s') {
      BeginServes(cfg, b, s, s', i);
    } else if Place(cfg, s, s') {
      PlaceServes(cfg, b, s, s', i);
    } else if EndPass(s, s') {
      EndServes(cfg, b, s, s', i, sent);
    } else if e: nat :| Visit(s, s', e) {
      VisitServes(cfg, b, s, s', i, e);
    }
  }

  lemma ServedStays(b: State, s: State, s': State, i: nat)
    requires ServedSince(b, s, i) && s.log <= s'.log
    ensures ServedSince(b, s', i)
  {
    var k :| |b.log| <= k < |s.log| && s.log[k].srv == i;
    assert s'.log[k] == s.log[k];
  }

  lemma {:induction false} ServedOrToBe(cfg: Config, run: seq<State>, b: nat, j: nat, i: nat, sent: int)
    requires Behaviour(cfg, run) && b <= j < |run| && run[b].phase == Polled
    requires CanBeServed(cfg, run[b], i, sent) && |run[j].log| - |run[b].log| <= sent
    requires forall m: nat :: b <= m < j ==> Supplied(cfg, run[m])
    ensures ServedSince(run[b], run[j], i) || ToBeServed(cfg, run[b], run[j], i)
    decreases j
  {
    if b < j {
      LogOnlyGrows(cfg, run, b, j - 1);
      LogOnlyGrows(cfg, run, j - 1, j);
      ServedOrToBe(cfg, run, b, j - 1, i, sent);
      assert StepInto(cfg, run, j);
      if ServedSince(run[b], run[j - 1], i) {
        ServedStays(run[b], run[j - 1], run[j], i);
      } else {
        ServesOn(cfg, run[b], run[j - 1], run[j], i, sent);
      }
    }
  }

  /** Nobody is passed over: as long as tokens and slots do not run out, every idle server
      that is due has got a query by the end of the passes; and so has every busy one if
      the pool could not grow and slots were left over. */
  lemma EveryoneServed(cfg: Config, run: seq<State>, b: nat, j: nat, i: nat)
    requires Behaviour(cfg, run) && b < j < |run|
    requires run[b].phase == Polled && run[j].phase != Polled && !run[j].phase.Scheduling?
    requires forall m: nat :: b <= m < j ==> Supplied(cfg, run[m])
    requires CanBeServed(cfg, run[b], i, |run[j].log| - |run[b].log|)
    ensures exists k :: |run[b].log| <= k < |run[j].log| && run[j].log[k].srv == i
  {
    ServedOrToBe(cfg, run, b, j, i, |run[j].log| - |run[b].log|);
  }

  /* ---- loading ---------------------------------------------------------------------------------- */

  /** Servers first .. last of the list are loaded, under their places as slot ids, each
      with all its checks to do; those of the pool stay. */
  ghost predicate Loaded(cfg: Config, pool: map<nat, Server>, first: nat, last: nat, after: map<nat, Server>)
    requires last <= |cfg.servers|
  {
    && (forall i: nat :: i in after <==> i in pool || first <= i < last)
    && (forall i: nat :: i in pool ==> i in after && after[i] == pool[i])
    && (forall i: nat :: first <= i < last ==>
          i in after && after[i] == NewServer(cfg.servers[i], cfg.template, cfg.maxAttempts))
  }

  ghost predicate SlotsInOrder(cfg: Config, s: State) {
    && s.nextSlot == s.dequeueIdx <= |cfg.servers| && |s.pool| <= cfg.maxPool
    && forall i :: i in s.pool ==> i < s.nextSlot
  }

  lemma LoadsOne(cfg: Config, s: State)
    requires SlotsInOrder(cfg, s) && HasRoom(cfg, s)
    ensures var t := LoadedOne(cfg, s);
            && SlotsInOrder(cfg, t) && t.dequeueIdx == s.dequeueIdx + 1 && |t.pool| == |s.pool| + 1
            && Loaded(cfg, s.pool, s.dequeueIdx, t.dequeueIdx, t.pool)
  {
    var t := LoadedOne(cfg, s);
    assert s.nextSlot !in s.pool;
    assert t.pool.Keys == s.pool.Keys + {s.nextSlot};
    assert |t.pool| == |t.pool.Keys| == |s.pool| + 1;
  }

  lemma LoadedOn(cfg: Config, pool: map<nat, Server>, first: nat, mid: nat, last: nat, pool1: map<nat, Server>,
      pool2: map<nat, Server>)
    requires first <= mid <= last <= |cfg.servers|
    requires Loaded(cfg, pool, first, mid, pool1) && Loaded(cfg, pool1, mid, last, pool2)
    ensures Loaded(cfg, pool, first, last, pool2)
  {
  }

  lemma {:induction false} LoadsMany(cfg: Config, s: State, n: nat)
    requires SlotsInOrder(cfg, s)
    ensures var t := LoadedN(cfg, s, n);
            && t.dequeueIdx == s.dequeueIdx + Least(n, Least(cfg.maxPool - |s.pool|, |cfg.servers| - s.dequeueIdx))
            && t.dequeueIdx <= |cfg.servers|
            && Loaded(cfg, s.pool, s.dequeueIdx, t.dequeueIdx, t.pool)
    decreases n
  {
    if n > 0 && HasRoom(cfg, s) {
      var one := LoadedOne(cfg, s);
      LoadsOne(cfg, s);
      LoadsMany(cfg, one, n - 1);
      var t := LoadedN(cfg, one, n - 1);
      LoadedOn(cfg, s.pool, s.dequeueIdx, one.dequeueIdx, t.dequeueIdx, one.pool, t.pool);
    }
  }

  /** Which servers a turn loads: none if the pool could not grow when it was opened;
      otherwise as many as there are tokens, slots free at the opening and not used since,
      places in the pool, and servers in the queue; always the next ones of the list. */
  lemma LoadsExactly(cfg: Config, run: seq<State>, k: nat) returns (b: nat)
    requires Behaviour(cfg, run) && k + 1 < |run| && run[k].phase.Loading? && run[k + 1].phase == Collecting
    ensures b < k && run[b].phase == Polled && forall m: nat :: b < m <= k ==> InTurn(run[m])
    ensures var s, s' := run[k], run[k + 1];
            var free := Slots(cfg) - BusyJobs(run[b]) - (|s.log| - |run[b].log|);
            var places := Least(cfg.maxPool - |s.pool|, |cfg.servers| - s.dequeueIdx);
            && s'.dequeueIdx - s.dequeueIdx ==
                 (if HasRoom(cfg, run[b]) && free > 0 then Least(Least(s.tokens, free), places) else 0)
            && s'.dequeueIdx <= |cfg.servers|
            && Loaded(cfg, s.pool, s.dequeueIdx, s'.dequeueIdx, s'.pool)
  {
    b := Opening(cfg, run, k);
    Always(cfg, run, k);
    assert StepInto(cfg, run, k + 1);
    LoadIsNext(cfg, run[k], run[k + 1]);
    LoadsBudget(cfg, run[k], run[k + 1]);
  }

  lemma LoadsBudget(cfg: Config, s: State, s': State)
    requires Load(cfg, s, s') && SlotsInOrder(cfg, s)
    ensures s'.dequeueIdx <= |cfg.servers| && Loaded(cfg, s.pool, s.dequeueIdx, s'.dequeueIdx, s'.pool)
    ensures s'.dequeueIdx - s.dequeueIdx ==
              (if Grows(s) && Free(s) > 0
               then Least(Least(s.tokens, Free(s)), Least(cfg.maxPool - |s.pool|, |cfg.servers| - s.dequeueIdx)) else 0)
  {
    LoadsMany(cfg, s, Budget(s));
  }

  lemma LoadIsNext(cfg: Config, s: State, s': State)
    requires Next(cfg, s, s') && s.phase.Loading? && s'.phase == Collecting
    ensures Load(cfg, s, s')
  {
    if OtherMove(cfg, s, s') {
      OtherKeepsPhase(cfg, s, s');
    }
  }
}
