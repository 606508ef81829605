/** Every run can be brought to its end, and a run has only so many turns of the loop in
    which something could be done. */
module Ending {
  import opened ServerState
  import opened Bucket
  import opened Sets
  import opened Protocol
  import opened Invariant
  import opened Safety
  import opened Budgets
  import opened Liveness
  import opened Verdicts

  ghost predicate Extends(cfg: Config, run: seq<State>, longer: seq<State>) {
    |run| > 0 && run <= longer && Behaviour(cfg, longer)
  }

  /* ---- the turn under way ------------------------------------------------------------ */

  ghost predicate Midway(p: Phase) {
    p != Collecting && p != Waiting
  }

  function PhaseRank(p: Phase): nat {
    match p
    case Polled => 4
    case Scheduling(_, _, _, _, _, _) => 3
    case PassesOver(_, _) => 2
    case Loading(_, _) => 1
    case _ => 0
  }

  function PassesLeft(p: Phase): nat {
    if p.Scheduling? && p.pass < 2 then 2 - p.pass else 0
  }

  function TodoLeft(p: Phase): nat {
    if p.Scheduling? then |p.todo| else 0
  }

  ghost predicate Nearer(s: State, s': State) {
    var p, p' := s.phase, s'.phase;
    || PhaseRank(p') < PhaseRank(p)
    || (PhaseRank(p') == PhaseRank(p) &&
        (|| PassesLeft(p') < PassesLeft(p)
         || (PassesLeft(p') == PassesLeft(p) &&
             (TodoLeft(p') < TodoLeft(p) || (TodoLeft(p') == TodoLeft(p) && Held(s') < Held(s))))))
  }

  /** Each of the scheduler's own steps brings a turn nearer to its end. */
  lemma TurnGoesOn(cfg: Config, s: State, s': State)
    requires SchedulerMove(cfg, s, s') && Midway(s.phase)
    ensures Nearer(s, s')
    ensures s'.phase == Collecting ==> Load(cfg, s, s')
    ensures IsDrained(cfg, s) && !s.phase.Loading? ==>
              IsDrained(cfg, s') && !s'.phase.Loading? && s'.phase != Collecting
  {
    if i: nat :| Visit(s, s', i) {
      VisitNearer(s, s', i);
    } else if Place(cfg, s, s') {
      PlaceNearer(cfg, s, s');
    }
  }

  lemma VisitNearer(s: State, s': State, i: nat)
    requires Visit(s, s', i)
    ensures Nearer(s, s') && s'.pool == s.pool && s'.dequeueIdx == s.dequeueIdx && s'.phase.Scheduling?
  {
    assert |s.phase.todo - {i}| == |s.phase.todo| - 1;
  }

  lemma PlaceNearer(cfg: Config, s: State, s': State)
    requires Place(cfg, s, s')
    ensures Nearer(s, s') && |s.pool| > 0 && s'.phase.Scheduling?
  {
    assert s.phase.held.value in s.pool.Keys;
  }

  lemma {:induction false} FinishTurn(cfg: Config, run: seq<State>) returns (longer: seq<State>)
    requires Behaviour(cfg, run) && Midway(Last(run).phase)
    ensures Extends(cfg, run, longer) && |longer| > |run| && !Midway(Last(longer).phase)
    ensures RoundEnd(cfg, longer[|longer| - 2], Last(longer))
    ensures IsDrained(cfg, Last(run)) && !Last(run).phase.Loading? ==> Last(longer).phase == Waiting
    decreases PhaseRank(Last(run).phase), PassesLeft(Last(run).phase), TodoLeft(Last(run).phase), Held(Last(run))
  {
    SchedulerNeverBlocks(cfg, run, |run| - 1);
    var s': State :| SchedulerMove(cfg, Last(run), s');
    ExtendScheduler(cfg, run, s');
    TurnGoesOn(cfg, Last(run), s');
    longer := run + [s'];
    if Midway(s'.phase) {
      longer := FinishTurn(cfg, run + [s']);
    }
  }

  /* ---- everything outstanding comes in --------------------------------------------------- */

  lemma CollectOne(cfg: Config, run: seq<State>) returns (longer: seq<State>)
    requires Behaviour(cfg, run) && Last(run).phase == Collecting && |Last(run).results| > 0
    ensures Extends(cfg, run, longer) && Last(longer).phase == Collecting
    ensures Outstanding(Last(longer)) == Outstanding(Last(run)) - 1
  {
    ResultInRange(cfg, run, |run| - 1);
    var s' := Protocol.Collected(cfg, Last(run), Last(run).results[0]);
    assert Collect(cfg, Last(run), s');
    ExtendScheduler(cfg, run, s');
    longer := run + [s'];
  }

  lemma SendOne(cfg: Config, run: seq<State>) returns (longer: seq<State>)
    requires Behaviour(cfg, run) && |Last(run).workers| > 0 && |Last(run).results| < Cap(cfg)
    ensures Extends(cfg, run, longer) && Last(longer).phase == Last(run).phase
    ensures Outstanding(Last(longer)) == Outstanding(Last(run)) - 1
    ensures WaitSteps(Last(longer)) == WaitSteps(Last(run)) - 1
  {
    SendEnabled(cfg, Last(run), 0);
    var reply: Reply, s': State :| Send(cfg, Last(run), s', 0, reply);
    ExtendOther(cfg, run, s');
    longer := run + [s'];
  }

  lemma ReleaseOne(cfg: Config, run: seq<State>) returns (longer: seq<State>)
    requires Behaviour(cfg, run) && Last(run).unreleased > 0
    ensures Extends(cfg, run, longer) && Last(longer).phase == Last(run).phase
    ensures Outstanding(Last(longer)) == Outstanding(Last(run)) - 1
    ensures WaitSteps(Last(longer)) == WaitSteps(Last(run)) - 1
  {
    var s' := Last(run).(unreleased := Last(run).unreleased - 1);
    assert Release(Last(run), s');
    ExtendOther(cfg, run, s');
    longer := run + [s'];
  }

  /** A send leaves a result to collect and a slot to release. */
  function Outstanding(s: State): nat {
    3 * |s.workers| + |s.results| + s.unreleased
  }

  lemma {:induction false} CollectAll(cfg: Config, run: seq<State>) returns (longer: seq<State>)
    requires Behaviour(cfg, run) && Last(run).phase == Collecting
    ensures Extends(cfg, run, longer) && Last(longer).phase == Collecting && NothingOut(Last(longer))
    decreases Outstanding(Last(run))
  {
    if NothingOut(Last(run)) {
      longer := run;
    } else {
      CapPositive(cfg);
      var next;
      if |Last(run).results| > 0 {
        next := CollectOne(cfg, run);
      } else if |Last(run).workers| > 0 {
        next := SendOne(cfg, run);
      } else {
        next := ReleaseOne(cfg, run);
      }
      longer := CollectAll(cfg, next);
    }
  }

  /** The final Wait, with the workers moving one by one. */
  lemma {:induction false} WaitOut(cfg: Config, run: seq<State>) returns (longer: seq<State>)
    requires Behaviour(cfg, run) && Last(run).phase == Waiting
    ensures Extends(cfg, run, longer) && Ended(Last(longer))
    decreases WaitSteps(Last(run))
  {
    EndedIsZero(Last(run));
    if Ended(Last(run)) {
      longer := run;
    } else {
      var next;
      if |Last(run).workers| > 0 {
        RoomToSend(cfg, run, |run| - 1);
        next := SendOne(cfg, run);
      } else {
        next := ReleaseOne(cfg, run);
      }
      longer := WaitOut(cfg, next);
    }
  }

  /* ---- a turn that gets something done ----------------------------------------------------- */

  /** A time by which every one of these servers is due. */
  lemma {:induction false} LatestDue(pool: map<nat, Server>, ids: set<nat>, clock: int) returns (time: int)
    requires ids <= pool.Keys
    ensures time >= clock && forall i :: i in ids ==> pool[i].nextQueryAt <= time
    decreases |ids|
  {
    time := clock;
    if ids != {} {
      var i := Member(ids);
      time := LatestDue(pool, ids - {i}, clock);
      if time < pool[i].nextQueryAt { time := pool[i].nextQueryAt; }
    }
  }

  /** With nothing outstanding, a refill and enough time make the next turn ready. */
  lemma MakeReady(cfg: Config, run: seq<State>) returns (longer: seq<State>)
    requires Behaviour(cfg, run) && Last(run).phase == Collecting && NothingOut(Last(run)) && !IsDrained(cfg, Last(run))
    ensures Extends(cfg, run, longer) && ReadyToGo(cfg, Last(longer))
  {
    var s := Last(run);
    var time := LatestDue(s.pool, s.pool.Keys, s.clock);
    var s1 := s.(tokens := Apply(cfg.limits, Refill, s.tokens), refills := s.refills + 1);
    assert RefillTick(cfg, s, s1);
    ExtendOther(cfg, run, s1);
    var s2 := s1.(clock := time);
    assert ClockTick(s1, s2, time);
    ExtendOther(cfg, run + [s1], s2);
    longer := run + [s1] + [s2];
  }

  /** The turn from here: the channel is seen empty, and the passes follow. */
  lemma WholeTurn(cfg: Config, run: seq<State>) returns (longer: seq<State>)
    requires Behaviour(cfg, run) && Last(run).phase == Collecting && Last(run).results == []
    ensures Extends(cfg, run, longer) && |longer| > |run| && !Midway(Last(longer).phase)
    ensures RoundEnd(cfg, longer[|longer| - 2], Last(longer))
    ensures IsDrained(cfg, Last(run)) ==> Last(longer).phase == Waiting
  {
    var s' := Last(run).(phase := Polled);
    assert EmptySeen(Last(run), s');
    ExtendScheduler(cfg, run, s');
    longer := FinishTurn(cfg, run + [s']);
  }

  lemma ReadyTurn(cfg: Config, run: seq<State>) returns (longer: seq<State>)
    requires Behaviour(cfg, run) && ReadyToGo(cfg, Last(run))
    ensures Extends(cfg, run, longer) && !Midway(Last(longer).phase) && Advanced(Last(run), Last(longer))
  {
    longer := WholeTurn(cfg, run);
    assert longer[|run| - 1] == Last(run);
    Progress(cfg, longer, |run| - 1, |longer| - 1);
  }

  /* ---- the end ----------------------------------------------------------------------------- */

  /** Queries dispatched and servers loaded so far. */
  function Achieved(s: State): nat {
    |s.log| + s.dequeueIdx
  }

  lemma StepAchieves(cfg: Config, s: State, s': State)
    requires Next(cfg, s, s')
    ensures |s'.log| >= |s.log| && s'.dequeueIdx >= s.dequeueIdx
  {
    if Load(cfg, s, s') {
      LoadWork(cfg, s, Budget(s));
    }
  }

  lemma RunAchieves(cfg: Config, run: seq<State>, i: nat, j: nat)
    requires IsRun(cfg, run) && i <= j < |run|
    ensures |run[j].log| >= |run[i].log| && run[j].dequeueIdx >= run[i].dequeueIdx
  {
    var keep := (s: State) => |s.log| >= |run[i].log| && s.dequeueIdx >= run[i].dequeueIdx;
    forall s: State, s': State | keep(s) && Next(cfg, s, s') ensures keep(s') {
      StepAchieves(cfg, s, s');
    }
    RunKeeps(cfg, run, keep, i, j);
  }

  lemma AchievedBound(cfg: Config, run: seq<State>, i: nat)
    requires Behaviour(cfg, run) && i < |run|
    ensures Achieved(run[i]) <= MostQueries(cfg) + NumServers(cfg)
  {
    QueryBound(cfg, run, i);
    PoolSafety(cfg, run, i);
    Always(cfg, run, i);
  }

  ghost function StillToAchieve(cfg: Config, run: seq<State>): nat
    requires Behaviour(cfg, run)
  {
    AchievedBound(cfg, run, |run| - 1);
    MostQueries(cfg) + NumServers(cfg) - Achieved(Last(run))
  }

  lemma ExtendsAchieves(cfg: Config, run: seq<State>, longer: seq<State>)
    requires Extends(cfg, run, longer)
    ensures Achieved(Last(longer)) >= Achieved(Last(run))
  {
    assert longer[|run| - 1] == Last(run);
    RunAchieves(cfg, longer, |run| - 1, |longer| - 1);
  }

  lemma ExtendsTrans(cfg: Config, a: seq<State>, b: seq<State>, c: seq<State>)
    requires Extends(cfg, a, b) && Extends(cfg, b, c)
    ensures Extends(cfg, a, c)
  {
  }

  /** The turn under way finished, and everything outstanding collected; unless the loop
      is left before. */
  lemma Settle(cfg: Config, run: seq<State>) returns (longer: seq<State>)
    requires Behaviour(cfg, run)
    ensures Extends(cfg, run, longer)
    ensures Last(longer).phase == Waiting || (Last(longer).phase == Collecting && NothingOut(Last(longer)))
  {
    var turned := run;
    if Midway(Last(run).phase) {
      turned := FinishTurn(cfg, run);
    }
    longer := turned;
    if Last(turned).phase == Collecting {
      longer := CollectAll(cfg, turned);
      ExtendsTrans(cfg, run, turned, longer);
    }
  }

  /** One more turn: with it the loop is left, or something more has been achieved. */
  lemma OneMoreTurn(cfg: Config, run: seq<State>) returns (longer: seq<State>)
    requires Behaviour(cfg, run) && Last(run).phase == Collecting && NothingOut(Last(run))
    ensures Extends(cfg, run, longer)
    ensures Last(longer).phase == Waiting || Achieved(Last(longer)) > Achieved(Last(run))
  {
    if IsDrained(cfg, Last(run)) {
      longer := WholeTurn(cfg, run);
    } else {
      var ready := MakeReady(cfg, run);
      longer := ReadyTurn(cfg, ready);
      ExtendsTrans(cfg, run, ready, longer);
      ExtendsAchieves(cfg, run, ready);
      assert longer[|ready| - 1] == Last(ready);
      RunAchieves(cfg, longer, |ready| - 1, |longer| - 1);
    }
  }

  lemma {:induction false} BringToEnd(cfg: Config, run: seq<State>) returns (longer: seq<State>)
    requires Behaviour(cfg, run)
    ensures Extends(cfg, run, longer) && Ended(Last(longer))
    decreases StillToAchieve(cfg, run)
  {
    var settled := Settle(cfg, run);
    ExtendsAchieves(cfg, run, settled);
    var turned := settled;
    if Last(settled).phase == Collecting {
      turned := OneMoreTurn(cfg, settled);
      ExtendsTrans(cfg, run, settled, turned);
    }
    if Last(turned).phase == Waiting {
      longer := WaitOut(cfg, turned);
    } else {
      longer := BringToEnd(cfg, turned);
    }
    ExtendsTrans(cfg, run, turned, longer);
  }

  /** This continuation of the run leaves the loop and returns from the Wait, with the
      figures of a sequential run. */
  ghost predicate EndsWith(cfg: Config, run: seq<State>, more: seq<State>) {
    && |run| > 0 && Behaviour(cfg, run + more)
    && Ended(Last(run + more)) && SequentialFigures(cfg, Last(run + more).status)
  }

  /** From every reachable state the program can still end: with the workers answering,
      the bucket refilled and time passing. */
  lemma CanEnd(cfg: Config, run: seq<State>)
    requires Behaviour(cfg, run)
    ensures exists more: seq<State> :: EndsWith(cfg, run, more)
  {
    var longer := BringToEnd(cfg, run);
    FinalFigures(cfg, longer, |longer| - 1);
    assert longer == run + longer[|run|..];
    assert EndsWith(cfg, run, longer[|run|..]);
  }

  /* ---- turns in which something could be done ------------------------------------------------ */

  /** The latest state of the turn under way at j in which it was ready, if any. */
  ghost function LastReady(cfg: Config, run: seq<State>, j: nat): int
    requires j < |run|
  {
    if ReadyToGo(cfg, run[j]) then j
    else if j == 0 || RoundEnd(cfg, run[j - 1], run[j]) then -1
    else LastReady(cfg, run, j - 1)
  }

  /** The turns finished by j that were ready at some moment. */
  ghost function ReadyTurns(cfg: Config, run: seq<State>, j: nat): nat
    requires j < |run|
  {
    if j == 0 then 0
    else
      ReadyTurns(cfg, run, j - 1)
      + (if RoundEnd(cfg, run[j - 1], run[j]) && LastReady(cfg, run, j - 1) >= 0 then 1 else 0)
  }

  /** Each of them has achieved something of its own. */
  ghost predicate TurnsPaidFor(cfg: Config, run: seq<State>, j: nat)
    requires j < |run|
  {
    && ReadyTurns(cfg, run, j) <= Achieved(run[j])
    && var i := LastReady(cfg, run, j);
       0 <= i ==> i <= j && ReadyToGo(cfg, run[i]) && ReadyTurns(cfg, run, j) <= Achieved(run[i])
  }

  lemma {:induction false} ReadyTurnsPaidFor(cfg: Config, run: seq<State>, j: nat)
    requires Behaviour(cfg, run) && j < |run|
    ensures TurnsPaidFor(cfg, run, j)
  {
    if j > 0 {
      ReadyTurnsPaidFor(cfg, run, j - 1);
      RunAchieves(cfg, run, j - 1, j);
      var i := LastReady(cfg, run, j - 1);
      if RoundEnd(cfg, run[j - 1], run[j]) && i >= 0 {
        Progress(cfg, run, i, j);
        RunAchieves(cfg, run, i, j);
      }
    }
  }

  /** In any run, however long, at most servers * checks * maxAttempts + servers turns of
      the loop were ready at some moment: undrained, nothing outstanding, a token in the
      bucket and every due time past. So no run goes on for ever through such turns. */
  lemma ReadyTurnsBounded(cfg: Config, run: seq<State>, j: nat)
    requires Behaviour(cfg, run) && j < |run|
    ensures ReadyTurns(cfg, run, j) <= MostQueries(cfg) + NumServers(cfg)
  {
    ReadyTurnsPaidFor(cfg, run, j);
    AchievedBound(cfg, run, j);
  }
}
