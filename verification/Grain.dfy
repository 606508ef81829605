/** The same program in finer grain: the compare-and-swap loops of the token bucket, the
    reads of the clock and of the job slots, and the read of the token count before a load
    are steps of their own, and the other goroutines move in between. Every run in this
    grain is matched by a run of the protocol. */
module Grain {
  import opened Answers
  import opened ServerState
  import opened Bucket
  import Linearizability
  import opened Protocol
  import opened WorkerSteps
  import opened Safety
  import opened Budgets
  import opened Verdicts

  /* ---- the finer steps ------------------------------------------------------------ */

  /** What the scheduler is in the middle of: between time.Now() and len(JobLimiter); in
      ConsumeOne for a server; in GiveBackOne; between Remaining() and LoadN. In a bucket
      call, `saw` is the value of the load, until a swap fails. */
  datatype Doing =
    | Nothing
    | Opening(now: int)
    | Consuming(id: nat, saw: Option<nat>)
    | GivingBack(saw: Option<nat>)
    | Sizing(budget: nat)

  /** Where the refiller stands in refillOnce. */
  datatype Filling = Resting | Called | Saw(tokens: nat)

  datatype Fine = Fine(st: State, doing: Doing, filling: Filling)

  function Loaded(s: State, id: nat, held: Option<nat>, tokens: nat): State
    requires s.phase.Scheduling?
  {
    s.(phase := s.phase.(todo := s.phase.todo - {id}, held := held), tokens := tokens)
  }

  ghost predicate OtherStep(cfg: Config, f: Fine, f': Fine) {
    && f'.doing == f.doing && f'.filling == f.filling
    && (WorkerMove(cfg, f.st, f'.st) || exists time: int :: ClockTick(f.st, f'.st, time))
  }

  /** refillOnce: called, load, swap; a failed swap loads again. */
  ghost predicate RefillerStep(cfg: Config, f: Fine, f': Fine) {
    && f'.doing == f.doing
    && match f.filling
       case Resting => f' == f.(filling := Called)
       case Called => f' == f.(filling := Saw(f.st.tokens))
       case Saw(seen) =>
         if f.st.tokens == seen
         then
           var tokens := Linearizability.Want(cfg.limits, Refill, seen);
           f' == f.(st := f.st.(tokens := tokens, refills := f.st.refills + 1), filling := Resting)
         else f' == f.(filling := Called)
  }

  /** ConsumeOne for server id: nothing there, or a token taken, or another try. */
  ghost predicate ConsumeStep(cfg: Config, f: Fine, f': Fine) {
    && f.doing.Consuming? && f'.filling == f.filling && f.st.phase.Scheduling?
    && match f.doing.saw
       case None =>
         if f.st.tokens == 0 then f' == f.(st := Loaded(f.st, f.doing.id, None, 0), doing := Nothing)
         else f' == f.(doing := Consuming(f.doing.id, Some(f.st.tokens)))
       case Some(seen) =>
         if f.st.tokens == seen
         then
           var tokens := Linearizability.Want(cfg.limits, Consume, seen);
           f' == f.(st := Loaded(f.st, f.doing.id, Some(f.doing.id), tokens), doing := Nothing)
         else f' == f.(doing := Consuming(f.doing.id, None))
  }

  ghost predicate GiveBackStep(cfg: Config, f: Fine, f': Fine) {
    && f.doing.GivingBack? && f'.filling == f.filling
    && match f.doing.saw
       case None =>
         if f.st.tokens >= cfg.limits.max then f' == f.(doing := Nothing)
         else f' == f.(doing := GivingBack(Some(f.st.tokens)))
       case Some(seen) =>
         if f.st.tokens == seen
         then f' == f.(st := f.st.(tokens := Linearizability.Want(cfg.limits, GiveBack, seen)), doing := Nothing)
         else f' == f.(doing := GivingBack(None))
  }

  /** The scheduler starts something that takes several steps. */
  ghost predicate StartStep(cfg: Config, f: Fine, f': Fine) {
    && f.doing == Nothing && f'.filling == f.filling
    && (|| (f.st.phase == Polled && f' == f.(doing := Opening(f.st.clock)))
        || (&& f.st.phase.Scheduling? && f.st.phase.held == None
            && exists id: nat :: id in f.st.phase.todo && id in f.st.pool && !Skips(f.st, id)
                                 && f' == f.(doing := Consuming(id, None)))
        || (&& f.st.phase.Scheduling? && f.st.phase.held.Some? && BusyJobs(f.st) >= Cap(cfg)
            && f' == f.(st := f.st.(phase := f.st.phase.(held := None)), doing := GivingBack(None)))
        || (f.st.phase.Loading? && f' == f.(doing := Sizing(Budget(f.st)))))
  }

  ghost predicate OpenStep(cfg: Config, f: Fine, f': Fine) {
    && f.doing.Opening?
    && var phase := EnterPass(0, f.st.pool, CanGrow(cfg, f.st), Cap(cfg) - BusyJobs(f.st), f.doing.now);
       f' == f.(st := f.st.(phase := phase), doing := Nothing)
  }

  ghost predicate SizedStep(cfg: Config, f: Fine, f': Fine) {
    && f.doing.Sizing?
    && f' == f.(st := LoadedN(cfg, f.st, f.doing.budget).(phase := Collecting), doing := Nothing)
  }

  ghost predicate SkipsOne(s: State, s': State) {
    && s.phase.Scheduling? && s.phase.held == None
    && exists id: nat :: id in s.phase.todo && id in s.pool && Skips(s, id) && Visit(s, s', id)
  }

  /** The scheduler's other steps are those of the protocol. */
  ghost predicate PlainStep(cfg: Config, f: Fine, f': Fine) {
    && f.doing == Nothing && f'.doing == Nothing && f'.filling == f.filling
    && (|| Collect(cfg, f.st, f'.st) || EmptySeen(f.st, f'.st) || EndPass(f.st, f'.st) || TestDrained(cfg, f.st, f'.st)
        || SkipsOne(f.st, f'.st) || (BusyJobs(f.st) < Cap(cfg) && Place(cfg, f.st, f'.st)))
  }

  ghost predicate FineNext(cfg: Config, f: Fine, f': Fine) {
    || OtherStep(cfg, f, f') || RefillerStep(cfg, f, f')
    || ConsumeStep(cfg, f, f') || GiveBackStep(cfg, f, f')
    || StartStep(cfg, f, f') || OpenStep(cfg, f, f') || SizedStep(cfg, f, f') || PlainStep(cfg, f, f')
  }

  ghost predicate FineInto(cfg: Config, run: seq<Fine>, i: nat)
    requires 0 < i < |run|
  {
    FineNext(cfg, run[i - 1], run[i])
  }

  ghost predicate FineBehaviour(cfg: Config, run: seq<Fine>) {
    && GoodConfig(cfg) && |run| >= 1
    && Init(cfg, run[0].st) && run[0].doing == Nothing && run[0].filling == Resting
    && forall i: nat :: 0 < i < |run| ==> FineInto(cfg, run, i)
  }

  /* ---- the matching protocol state --------------------------------------------------- */

  /** A token on its way back is back already; the clock stands until the job slots have
      been read; servers are loaded when the token count is read. */
  function Seen(cfg: Config, f: Fine): State {
    match f.doing
    case Opening(now) => f.st.(clock := now)
    case GivingBack(_) => f.st.(tokens := Apply(cfg.limits, GiveBack, f.st.tokens))
    case Sizing(budget) => LoadedN(cfg, f.st, budget).(phase := Collecting)
    case _ => f.st
  }

  /** What the scheduler knows while it is in the middle of something. */
  ghost predicate FineOk(cfg: Config, f: Fine) {
    match f.doing
    case Nothing => true
    case Opening(now) => f.st.phase == Polled && now <= f.st.clock
    case Consuming(id, saw) =>
      && f.st.phase.Scheduling? && f.st.phase.held == None
      && id in f.st.phase.todo && id in f.st.pool && !Skips(f.st, id)
      && (saw.Some? ==> saw.value > 0)
    case GivingBack(saw) => saw.Some? ==> saw.value < cfg.limits.max
    case Sizing(budget) => f.st.phase.Loading?
  }

  /* ---- steps of the other goroutines --------------------------------------------------- */

  /** Loading looks at the pool and the queue only. */
  lemma {:induction false} LoadedAlike(cfg: Config, s: State, t: State, n: nat)
    requires s.pool == t.pool && s.dequeueIdx == t.dequeueIdx && s.nextSlot == t.nextSlot
    ensures var l, m := LoadedN(cfg, s, n), LoadedN(cfg, t, n);
            && SameButPool(s, l) && SameButPool(t, m)
            && l.pool == m.pool && l.dequeueIdx == m.dequeueIdx && l.nextSlot == m.nextSlot
    decreases n
  {
    LoadNSame(cfg, s, n);
    LoadNSame(cfg, t, n);
    if n > 0 && CanGrow(cfg, s) {
      LoadedAlike(cfg, LoadedOne(cfg, s), LoadedOne(cfg, t), n - 1);
    }
  }

  /** What a worker's move reads and changes. */
  ghost predicate SameForWorkers(s: State, t: State) {
    && s.workers == t.workers && s.unreleased == t.unreleased && s.results == t.results && s.cancelled == t.cancelled
  }

  lemma SendAlike(cfg: Config, s: State, s': State, t: State, t': State, k: nat, reply: Reply)
    requires Send(cfg, s, s', k, reply) && SameForWorkers(s, t) && SameForWorkers(s', t')
    requires t' == t.(workers := t'.workers, unreleased := t'.unreleased, results := t'.results)
    ensures Send(cfg, t, t', k, reply)
  {
  }

  lemma WorkerAlike(cfg: Config, s: State, s': State, t: State, t': State)
    requires WorkerMove(cfg, s, s') && SameForWorkers(s, t) && SameForWorkers(s', t')
    requires t' == t.(workers := t'.workers, unreleased := t'.unreleased, results := t'.results)
    ensures WorkerMove(cfg, t, t')
  {
    if k: nat, reply: Reply :| Send(cfg, s, s', k, reply) {
      SendAlike(cfg, s, s', t, t', k, reply);
    } else {
      assert Release(t, t');
    }
  }

  lemma WorkerOnlyThat(cfg: Config, s: State, s': State)
    requires WorkerMove(cfg, s, s')
    ensures s' == s.(workers := s'.workers, unreleased := s'.unreleased, results := s'.results)
  {
  }

  lemma OtherSeen(cfg: Config, f: Fine, f': Fine)
    requires OtherStep(cfg, f, f') && FineOk(cfg, f)
    ensures FineOk(cfg, f') && (Seen(cfg, f') == Seen(cfg, f) || OtherMove(cfg, Seen(cfg, f), Seen(cfg, f')))
  {
    if f.doing.Sizing? { LoadedAlike(cfg, f.st, f'.st, f.doing.budget); }
    if WorkerMove(cfg, f.st, f'.st) {
      WorkerOnlyThat(cfg, f.st, f'.st);
      WorkerAlike(cfg, f.st, f'.st, Seen(cfg, f), Seen(cfg, f'));
    } else {
      var time: int :| ClockTick(f.st, f'.st, time);
      if !f.doing.Opening? { assert ClockTick(Seen(cfg, f), Seen(cfg, f'), time); }
    }
  }

  lemma RefillAfterGiveBack(l: Limits, tokens: nat)
    requires tokens <= l.max
    ensures Apply(l, Refill, Apply(l, GiveBack, tokens)) == Apply(l, GiveBack, Apply(l, Refill, tokens))
  {
  }

  lemma RefillerSeen(cfg: Config, f: Fine, f': Fine)
    requires RefillerStep(cfg, f, f') && FineOk(cfg, f) && f.st.tokens <= cfg.limits.max
    ensures FineOk(cfg, f') && (Seen(cfg, f') == Seen(cfg, f) || OtherMove(cfg, Seen(cfg, f), Seen(cfg, f')))
  {
    if f.doing.Sizing? { LoadedAlike(cfg, f.st, f'.st, f.doing.budget); }
    if f.filling.Saw? && f.st.tokens == f.filling.tokens {
      RefillAfterGiveBack(cfg.limits, f.st.tokens);
      assert RefillTick(cfg, Seen(cfg, f), Seen(cfg, f'));
    }
  }

  /* ---- steps of the scheduler ------------------------------------------------------------ */

  lemma ConsumeSeen(cfg: Config, f: Fine, f': Fine)
    requires ConsumeStep(cfg, f, f') && FineOk(cfg, f)
    ensures FineOk(cfg, f') && (Seen(cfg, f') == Seen(cfg, f) || SchedulerMove(cfg, Seen(cfg, f), Seen(cfg, f')))
  {
    if f'.doing == Nothing {
      assert Visit(f.st, f'.st, f.doing.id);
    }
  }

  /** The token is seen back in the bucket from the start, so the call itself changes nothing. */
  lemma GiveBackSeen(cfg: Config, f: Fine, f': Fine)
    requires GiveBackStep(cfg, f, f') && FineOk(cfg, f)
    ensures FineOk(cfg, f') && Seen(cfg, f') == Seen(cfg, f)
  {
  }

  lemma StartSeen(cfg: Config, run: seq<State>, f: Fine, f': Fine)
    requires Behaviour(cfg, run) && Last(run) == f.st
    requires StartStep(cfg, f, f') && FineOk(cfg, f)
    ensures FineOk(cfg, f') && (Seen(cfg, f') == Seen(cfg, f) || SchedulerMove(cfg, Seen(cfg, f), Seen(cfg, f')))
  {
    if f'.doing.GivingBack? {
      HeldFits(cfg, run, |run| - 1);
      assert Place(cfg, f.st, Seen(cfg, f'));
    } else if f'.doing.Sizing? {
      assert Load(cfg, f.st, Seen(cfg, f'));
    }
  }

  /** The server a token is held for is loaded, with a check in place to send out. */
  lemma HeldFits(cfg: Config, run: seq<State>, k: nat)
    requires Behaviour(cfg, run) && k < |run| && run[k].phase.Scheduling? && run[k].phase.held.Some?
    ensures var s, i := run[k], run[k].phase.held.value;
            i in s.pool && |s.pool[i].pending| > 0 && s.pool[i].pending[0] < |s.pool[i].checks|
  {
    PendingWhenHeld(cfg, run, k, run[k].phase.held.value);
    FrontInRange(cfg, run, k, run[k].phase.held.value);
  }

  lemma PlainSeen(cfg: Config, f: Fine, f': Fine)
    requires PlainStep(cfg, f, f')
    ensures FineOk(cfg, f') && SchedulerMove(cfg, Seen(cfg, f), Seen(cfg, f'))
  {
  }

  lemma SizedSeen(cfg: Config, f: Fine, f': Fine)
    requires SizedStep(cfg, f, f')
    ensures FineOk(cfg, f') && Seen(cfg, f') == Seen(cfg, f)
  {
  }

  /** The passes begin with the clock as it was read, and then the clock moves on. */
  lemma OpenSeen(cfg: Config, f: Fine, f': Fine) returns (between: State)
    requires OpenStep(cfg, f, f') && FineOk(cfg, f)
    ensures FineOk(cfg, f') && SchedulerMove(cfg, Seen(cfg, f), between) && OtherMove(cfg, between, Seen(cfg, f'))
  {
    between := f'.st.(clock := f.doing.now);
    assert BeginPasses(cfg, Seen(cfg, f), between);
    assert ClockTick(between, f'.st, f'.st.clock);
  }

  /* ---- whole runs ----------------------------------------------------------------------- */

  /** Fine state f is matched by the end of this run of the protocol. */
  ghost predicate Matched(cfg: Config, f: Fine, run: seq<State>) {
    |run| > 0 && Behaviour(cfg, run) && Last(run) == Seen(cfg, f) && FineOk(cfg, f)
  }

  lemma TokensInRange(cfg: Config, f: Fine, run: seq<State>)
    requires Matched(cfg, f, run)
    ensures f.st.tokens <= cfg.limits.max
  {
    GlobalBudget(cfg, run, |run| - 1);
    if f.doing.Sizing? { LoadNSame(cfg, f.st, f.doing.budget); }
  }

  /** Steps that leave the matching state alone, or change it as another goroutine does,
      or as the scheduler does. */
  lemma Follow(cfg: Config, f': Fine, run: seq<State>) returns (longer: seq<State>)
    requires |run| > 0 && Behaviour(cfg, run) && FineOk(cfg, f')
    requires var s, s' := Last(run), Seen(cfg, f');
             s' == s || OtherMove(cfg, s, s') || SchedulerMove(cfg, s, s')
    ensures run <= longer && Matched(cfg, f', longer)
  {
    longer := run;
    if Seen(cfg, f') != Last(run) {
      Extend(cfg, run, Seen(cfg, f'));
      longer := run + [Seen(cfg, f')];
    }
  }

  lemma SimpleStepSeen(cfg: Config, f: Fine, f': Fine, run: seq<State>)
    requires Matched(cfg, f, run) && FineNext(cfg, f, f') && !OpenStep(cfg, f, f')
    ensures FineOk(cfg, f')
    ensures var s, s' := Seen(cfg, f), Seen(cfg, f');
            s' == s || OtherMove(cfg, s, s') || SchedulerMove(cfg, s, s')
  {
    TokensInRange(cfg, f, run);
    if OtherStep(cfg, f, f') { OtherSeen(cfg, f, f'); }
    else if RefillerStep(cfg, f, f') { RefillerSeen(cfg, f, f'); }
    else if ConsumeStep(cfg, f, f') { ConsumeSeen(cfg, f, f'); }
    else if GiveBackStep(cfg, f, f') { GiveBackSeen(cfg, f, f'); }
    else if StartStep(cfg, f, f') { StartSeen(cfg, run, f, f'); }
    else if SizedStep(cfg, f, f') { SizedSeen(cfg, f, f'); }
    else { PlainSeen(cfg, f, f'); }
  }

  lemma FollowOpening(cfg: Config, f: Fine, f': Fine, run: seq<State>) returns (longer: seq<State>)
    requires Matched(cfg, f, run) && OpenStep(cfg, f, f')
    ensures run <= longer && Matched(cfg, f', longer)
  {
    var between := OpenSeen(cfg, f, f');
    ExtendScheduler(cfg, run, between);
    longer := Follow(cfg, f', run + [between]);
  }

  lemma FollowStep(cfg: Config, f: Fine, f': Fine, run: seq<State>) returns (longer: seq<State>)
    requires Matched(cfg, f, run) && FineNext(cfg, f, f')
    ensures run <= longer && Matched(cfg, f', longer)
  {
    if OpenStep(cfg, f, f') {
      longer := FollowOpening(cfg, f, f', run);
    } else {
      SimpleStepSeen(cfg, f, f', run);
      longer := Follow(cfg, f', run);
    }
  }

  /** The run of the protocol passes through the matches of all fine states, in order. */
  ghost predicate Matches(cfg: Config, fine: seq<Fine>, run: seq<State>, at: seq<nat>) {
    && |run| > 0 && Behaviour(cfg, run) && |at| == |fine| > 0 && at[|at| - 1] == |run| - 1
    && (forall j :: 0 <= j < |at| ==> at[j] < |run| && run[at[j]] == Seen(cfg, fine[j]))
    && (forall j, k :: 0 <= j < k < |at| ==> at[j] <= at[k])
  }

  lemma MatchOneMore(cfg: Config, fine: seq<Fine>, run: seq<State>, at: seq<nat>, f': Fine, longer: seq<State>)
    requires Matches(cfg, fine, run, at) && run <= longer && Matched(cfg, f', longer)
    ensures Matches(cfg, fine + [f'], longer, at + [|longer| - 1])
  {
  }

  lemma StartsMatched(cfg: Config, fine: seq<Fine>)
    requires FineBehaviour(cfg, fine)
    ensures Matched(cfg, fine[0], [fine[0].st]) && Matches(cfg, fine[..1], [fine[0].st], [0])
  {
  }

  /** Atomicity. Every run in the fine grain is matched, state by state, by a run of the
      protocol: what is proved of the protocol's runs holds of it. */
  lemma {:induction false} Atomicity(cfg: Config, fine: seq<Fine>, n: nat) returns (run: seq<State>, at: seq<nat>)
    requires FineBehaviour(cfg, fine) && 0 < n <= |fine|
    ensures Matches(cfg, fine[..n], run, at) && Matched(cfg, fine[n - 1], run)
  {
    if n == 1 {
      StartsMatched(cfg, fine);
      run, at := [fine[0].st], [0];
    } else {
      var before, was := Atomicity(cfg, fine, n - 1);
      assert FineInto(cfg, fine, n - 1);
      run := FollowStep(cfg, fine[n - 2], fine[n - 1], before);
      MatchOneMore(cfg, fine[..n - 1], before, was, fine[n - 1], run);
      assert fine[..n] == fine[..n - 1] + [fine[n - 1]];
      at := was + [|run| - 1];
    }
  }

  lemma SeenRecords(cfg: Config, f: Fine)
    ensures Seen(cfg, f).status == f.st.status && Seen(cfg, f).log == f.st.log && Seen(cfg, f).refills == f.st.refills
  {
    if f.doing.Sizing? { LoadNSame(cfg, f.st, f.doing.budget); }
  }

  /** So in the fine grain, too, the bucket never overflows, the request budget is kept,
      and whoever gets to the final Wait has the figures of a sequential run. */
  lemma FineFigures(cfg: Config, fine: seq<Fine>, n: nat)
    requires FineBehaviour(cfg, fine) && n < |fine|
    ensures fine[n].st.tokens <= cfg.limits.max
    ensures |fine[n].st.log| <= cfg.limits.max + fine[n].st.refills * cfg.limits.refill
    ensures fine[n].doing == Nothing && fine[n].st.phase == Waiting ==> SequentialFigures(cfg, fine[n].st.status)
  {
    var run, at := Atomicity(cfg, fine, n + 1);
    TokensInRange(cfg, fine[n], run);
    GlobalBudget(cfg, run, |run| - 1);
    SeenRecords(cfg, fine[n]);
    if fine[n].doing == Nothing && fine[n].st.phase == Waiting {
      FinalFigures(cfg, run, |run| - 1);
    }
  }
}
