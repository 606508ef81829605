/** The lock-free token bucket: its atomic meaning, and the compare-and-swap loops. */
module Bucket {

  datatype Op = Consume | GiveBack | Refill

  /** maxTokens and refillAmount, which never change after construction. */
  datatype Limits = Limits(max: nat, refill: nat)

  /** One operation done in one indivisible step: the bucket after it. */
  function Apply(l: Limits, op: Op, tokens: nat): (after: nat)
    ensures tokens <= l.max ==> after <= l.max
  {
    match op
    case Consume => if tokens == 0 then 0 else tokens - 1
    case GiveBack => if tokens >= l.max then tokens else tokens + 1
    case Refill => if tokens + l.refill > l.max then l.max else tokens + l.refill
  }

  /** What the operation returns; only ConsumeOne can say false. */
  function Answer(op: Op, tokens: nat): bool {
    op == Consume ==> tokens > 0
  }

  /** What the operations mean: ConsumeOne takes a token if there is one, GiveBackOne adds
      one and a refill its amount, neither beyond the maximum. A token given back at once
      leaves the bucket as it was. */
  lemma Meanings(l: Limits, tokens: nat)
    requires tokens <= l.max
    ensures tokens > 0 ==> Answer(Consume, tokens) && Apply(l, Consume, tokens) == tokens - 1
    ensures tokens == 0 ==> !Answer(Consume, tokens) && Apply(l, Consume, tokens) == 0
    ensures Apply(l, GiveBack, tokens) == if tokens < l.max then tokens + 1 else l.max
    ensures Apply(l, Refill, tokens) == if tokens + l.refill < l.max then tokens + l.refill else l.max
    ensures tokens > 0 ==> Apply(l, GiveBack, Apply(l, Consume, tokens)) == tokens
  {
  }

  /** The operation ends at its load, without a swap. */
  predicate DecidedByLoad(l: Limits, op: Op, tokens: nat) {
    (op == Consume && tokens == 0) || (op == GiveBack && tokens >= l.max)
  }

  function Replay(l: Limits, tokens: nat, ops: seq<Op>): (after: nat)
    ensures tokens <= l.max ==> after <= l.max
    decreases |ops|
  {
    if ops == [] then tokens else Apply(l, ops[|ops| - 1], Replay(l, tokens, ops[..|ops| - 1]))
  }

  lemma ReplayOne(l: Limits, tokens: nat, ops: seq<Op>, op: Op)
    ensures Replay(l, tokens, ops + [op]) == Apply(l, op, Replay(l, tokens, ops))
  {
    assert (ops + [op])[..|ops|] == ops;
  }

  lemma DecidedChangesNothing(l: Limits, op: Op, tokens: nat)
    requires DecidedByLoad(l, op, tokens)
    ensures Apply(l, op, tokens) == tokens
  {
  }

  /** The bucket with its compare-and-swap retry loops. `others` is what the other
      goroutines complete while a call runs; how much of it falls between a load and
      the swap that follows is left open. */
  class RateLimiter {
    var tokens: nat
    const limits: Limits

    constructor (refillAmount: nat)
      requires refillAmount >= 1
      ensures tokens == limits.max == limits.refill == refillAmount
    {
      tokens := refillAmount;
      limits := Limits(refillAmount, refillAmount);
    }

    ghost predicate Valid()
      reads this
    {
      tokens <= limits.max
    }

    /** Other goroutines run: some of the operations from the i-th on complete. */
    method Interfere(others: seq<Op>, i: nat) returns (j: nat)
      requires i <= |others|
      modifies this
      ensures i <= j <= |others|
      ensures forall before: nat ::
                old(tokens) == Replay(limits, before, others[..i]) ==> tokens == Replay(limits, before, others[..j])
      ensures i == j ==> tokens == old(tokens)
    {
      j := i;
      var stop: nat := *;
      while j < |others| && j < stop
        invariant i <= j <= |others|
        invariant forall before: nat ::
            old(tokens) == Replay(limits, before, others[..i]) ==> tokens == Replay(limits, before, others[..j])
        invariant i == j ==> tokens == old(tokens)
      {
        assert others[..j + 1] == others[..j] + [others[j]];
        forall before: nat
          ensures Replay(limits, before, others[..j + 1]) ==
                  Apply(limits, others[j], Replay(limits, before, others[..j]))
        {
          ReplayOne(limits, before, others[..j], others[j]);
        }
        tokens := Apply(limits, others[j], tokens);
        j := j + 1;
      }
    }

    method CompareAndSwap(expected: nat, want: nat) returns (swapped: bool)
      modifies this
      ensures swapped == (old(tokens) == expected)
      ensures tokens == if swapped then want else old(tokens)
    {
      swapped := tokens == expected;
      if swapped {
        tokens := want;
      }
    }

    /** ConsumeOne. Whatever runs meanwhile, the call is one atomic Consume placed
        after the first k of the others, and its result is that operation's result.
        It terminates because every failed swap is paid for by one of the others. */
    method ConsumeOne(others: seq<Op>) returns (ok: bool, k: nat)
      requires Valid()
      modifies this
      ensures Valid() && k <= |others|
      ensures var at := Replay(limits, old(tokens), others[..k]);
              ok == Answer(Consume, at) && tokens == Apply(limits, Consume, at)
    {
      k := 0;
      while true
        invariant k <= |others| && Valid()
        invariant tokens == Replay(limits, old(tokens), others[..k])
        decreases |others| - k
      {
        var seen := tokens;
        if seen == 0 {
          return false, k;
        }
        k := Interfere(others, k);
        var swapped := CompareAndSwap(seen, seen - 1);
        if swapped {
          return true, k;
        }
      }
    }

    /** GiveBackOne: one atomic GiveBack after the first k of the others. */
    method GiveBackOne(others: seq<Op>) returns (k: nat)
      requires Valid()
      modifies this
      ensures Valid() && k <= |others|
      ensures tokens == Apply(limits, GiveBack, Replay(limits, old(tokens), others[..k]))
    {
      k := 0;
      while true
        invariant k <= |others| && Valid()
        invariant tokens == Replay(limits, old(tokens), others[..k])
        decreases |others| - k
      {
        var seen := tokens;
        if seen >= limits.max {
          return k;
        }
        k := Interfere(others, k);
        var swapped := CompareAndSwap(seen, seen + 1);
        if swapped {
          return k;
        }
      }
    }

    /** refillOnce: one atomic Refill after the first k of the others. */
    method RefillOnce(others: seq<Op>) returns (k: nat)
      requires Valid()
      modifies this
      ensures Valid() && k <= |others|
      ensures tokens == Apply(limits, Refill, Replay(limits, old(tokens), others[..k]))
    {
      k := 0;
      while true
        invariant k <= |others| && Valid()
        invariant tokens == Replay(limits, old(tokens), others[..k])
        decreases |others| - k
      {
        var seen := tokens;
        var want := seen + limits.refill;
        if want > limits.max {
          want := limits.max;
        }
        k := Interfere(others, k);
        var swapped := CompareAndSwap(seen, want);
        if swapped {
          return k;
        }
      }
    }
  }
}

/** Any number of threads running those loops micro-step by micro-step. */
module Linearizability {
  import opened Bucket

  /** Where a thread stands. `invoked` is the time of its call. After a load it holds
      the value it saw and how many operations had taken effect by then; once its own
      operation has taken effect it still has to return. */
  datatype Thread =
    | Idle
    | Called(op: Op, invoked: nat)
    | Loaded(op: Op, invoked: nat, seen: nat, since: nat)
    | Done(op: Op, invoked: nat, result: bool, index: nat)

  /** An operation taking effect at time `at`. */
  datatype Effect = Effect(thread: nat, op: Op, result: bool, at: nat)

  /** A finished call, its two end points, and the effect it claims as its own. */
  datatype Call = Call(thread: nat, op: Op, result: bool, invoked: nat, returned: nat, index: nat)

  datatype State = State(tokens: nat, threads: seq<Thread>, now: nat, effects: seq<Effect>, calls: seq<Call>)

  ghost predicate Init(l: Limits, s: State) {
    && s.tokens == l.max && s.now == 0 && s.effects == [] && s.calls == []
    && forall t :: 0 <= t < |s.threads| ==> s.threads[t] == Idle
  }

  datatype Micro = Invoke(op: Op) | Load | Swap | Return

  function Takes(s: State, t: nat, op: Op, result: bool, tokens: nat): State
    requires t < |s.threads| && !s.threads[t].Idle?
  {
    s.(tokens := tokens,
       threads := s.threads[t := Done(op, s.threads[t].invoked, result, |s.effects|)],
       effects := s.effects + [Effect(t, op, result, s.now)],
       now := s.now + 1)
  }

  function Want(l: Limits, op: Op, seen: nat): nat {
    match op
    case Consume => if seen == 0 then 0 else seen - 1
    case GiveBack => seen + 1
    case Refill => if seen + l.refill > l.max then l.max else seen + l.refill
  }

  /** One micro-step of thread t. */
  ghost predicate Step(l: Limits, s: State, t: nat, m: Micro, s': State) {
    t < |s.threads| &&
    match m
    case Invoke(op) =>
      && s.threads[t].Idle?
      && s' == s.(threads := s.threads[t := Called(op, s.now)], now := s.now + 1)
    case Load =>
      && s.threads[t].Called?
      && var op := s.threads[t].op;
         if DecidedByLoad(l, op, s.tokens) then s' == Takes(s, t, op, Answer(op, s.tokens), s.tokens)
         else s' == s.(threads := s.threads[t := Loaded(op, s.threads[t].invoked, s.tokens, |s.effects|)],
                       now := s.now + 1)
    case Swap =>
      && s.threads[t].Loaded?
      && var op := s.threads[t].op;
         if s.tokens == s.threads[t].seen then s' == Takes(s, t, op, true, Want(l, op, s.threads[t].seen))
         else s' == s.(threads := s.threads[t := Called(op, s.threads[t].invoked)], now := s.now + 1)
    case Return =>
      && s.threads[t].Done?
      && var d := s.threads[t];
         s' == s.(threads := s.threads[t := Idle],
                  calls := s.calls + [Call(t, d.op, d.result, d.invoked, s.now, d.index)],
                  now := s.now + 1)
  }

  ghost predicate Moves(l: Limits, s: State, s': State) {
    exists t: nat, m: Micro :: Step(l, s, t, m, s')
  }

  ghost predicate Run(l: Limits, run: seq<State>) {
    && |run| >= 1 && Init(l, run[0])
    && forall i :: 0 < i < |run| ==> Moves(l, run[i - 1], run[i])
  }

  function Ops(effects: seq<Effect>): (r: seq<Op>)
    ensures |r| == |effects|
    ensures forall i :: 0 <= i < |effects| ==> r[i] == effects[i].op
  {
    seq(|effects|, i requires 0 <= i < |effects| => effects[i].op)
  }

  /** The bucket that effect number k finds. */
  function Found(l: Limits, effects: seq<Effect>, k: nat): nat
    requires k <= |effects|
  {
    Replay(l, l.max, Ops(effects[..k]))
  }

  /** Read in order, the effects are a legal run of the atomic bucket that ends in
      its present contents. */
  ghost predicate Legal(l: Limits, s: State) {
    && s.tokens == Found(l, s.effects, |s.effects|)
    && (forall k :: 0 <= k < |s.effects| ==> s.effects[k].result == Answer(s.effects[k].op, Found(l, s.effects, k)))
    && (forall j, k :: 0 <= j < k < |s.effects| ==> s.effects[j].at < s.effects[k].at)
    && (forall k :: 0 <= k < |s.effects| ==> s.effects[k].at < s.now)
  }

  /** Every finished call owns one effect, with its own thread, operation and result,
      between its invocation and its return; and no effect is owned twice. */
  ghost predicate CallsOwnEffects(s: State) {
    && (forall c :: 0 <= c < |s.calls| ==>
          && s.calls[c].index < |s.effects|
          && s.effects[s.calls[c].index] == Effect(s.calls[c].thread, s.calls[c].op, s.calls[c].result,
              s.effects[s.calls[c].index].at)
          && s.calls[c].invoked < s.effects[s.calls[c].index].at < s.calls[c].returned < s.now)
    && (forall c, d :: 0 <= c < d < |s.calls| ==> s.calls[c].index != s.calls[d].index)
  }

  /** What the threads in the middle of a call know. */
  ghost predicate ThreadOk(l: Limits, s: State, t: nat)
    requires t < |s.threads|
  {
    match s.threads[t]
    case Idle => true
    case Called(op, invoked) => invoked < s.now
    case Loaded(op, invoked, seen, since) =>
      && invoked < s.now && since <= |s.effects|
      && seen == Found(l, s.effects, since) && !DecidedByLoad(l, op, seen)
      && (forall k :: since <= k < |s.effects| ==> s.effects[k].thread != t)
    case Done(op, invoked, result, index) =>
      && index < |s.effects| && s.effects[index] == Effect(t, op, result, s.effects[index].at)
      && invoked < s.effects[index].at < s.now
      && (forall c :: 0 <= c < |s.calls| ==> s.calls[c].index != index)
  }

  ghost predicate Inv(l: Limits, s: State) {
    && Legal(l, s) && CallsOwnEffects(s)
    && forall t :: 0 <= t < |s.threads| ==> ThreadOk(l, s, t)
  }

  lemma FoundStable(l: Limits, effects: seq<Effect>, e: Effect, k: nat)
    requires k <= |effects|
    ensures Found(l, effects + [e], k) == Found(l, effects, k)
  {
    assert (effects + [e])[..k] == effects[..k];
  }

  lemma FoundNext(l: Limits, effects: seq<Effect>, e: Effect)
    ensures Found(l, effects + [e], |effects| + 1) == Apply(l, e.op, Found(l, effects, |effects|))
  {
    assert (effects + [e])[..|effects| + 1] == effects + [e];
    assert effects[..|effects|] == effects;
    assert Ops(effects + [e]) == Ops(effects) + [e.op];
    ReplayOne(l, l.max, Ops(effects), e.op);
  }

  lemma TakesLegal(l: Limits, s: State, t: nat, op: Op, result: bool, tokens: nat)
    requires Legal(l, s) && t < |s.threads| && !s.threads[t].Idle?
    requires result == Answer(op, s.tokens) && tokens == Apply(l, op, s.tokens)
    ensures Legal(l, Takes(s, t, op, result, tokens))
  {
    var e := Effect(t, op, result, s.now);
    FoundNext(l, s.effects, e);
    ResultsStayLegal(l, s.effects, e);
    TimesGrow(s.effects, e, s.now);
  }

  lemma ResultsStayLegal(l: Limits, effects: seq<Effect>, e: Effect)
    requires forall k :: 0 <= k < |effects| ==> effects[k].result == Answer(effects[k].op, Found(l, effects, k))
    requires e.result == Answer(e.op, Found(l, effects, |effects|))
    ensures var after := effects + [e];
            forall k :: 0 <= k < |after| ==> after[k].result == Answer(after[k].op, Found(l, after, k))
  {
    var after := effects + [e];
    forall k | 0 <= k < |after| ensures after[k].result == Answer(after[k].op, Found(l, after, k)) {
      FoundStable(l, effects, e, k);
    }
  }

  lemma TimesGrow(effects: seq<Effect>, e: Effect, now: nat)
    requires forall j, k :: 0 <= j < k < |effects| ==> effects[j].at < effects[k].at
    requires forall k :: 0 <= k < |effects| ==> effects[k].at < now
    requires e.at == now
    ensures forall j, k :: 0 <= j < k < |effects + [e]| ==> (effects + [e])[j].at < (effects + [e])[k].at
    ensures forall k :: 0 <= k < |effects + [e]| ==> (effects + [e])[k].at < now + 1
  {
  }

  lemma OthersStayOk(l: Limits, s: State, t: nat, op: Op, result: bool, tokens: nat, u: nat)
    requires CallsOwnEffects(s) && t < |s.threads| && !s.threads[t].Idle? && u < |s.threads| && u != t
    requires ThreadOk(l, s, u)
    ensures ThreadOk(l, Takes(s, t, op, result, tokens), u)
  {
    if s.threads[u].Loaded? {
      FoundStable(l, s.effects, Effect(t, op, result, s.now), s.threads[u].since);
    }
  }

  /** A step that takes effect: the swap, or the load that decides. */
  lemma TakesKeepsInv(l: Limits, s: State, t: nat, op: Op, result: bool, tokens: nat)
    requires Inv(l, s) && t < |s.threads| && (s.threads[t].Called? || s.threads[t].Loaded?) && s.threads[t].op == op
    requires result == Answer(op, s.tokens) && tokens == Apply(l, op, s.tokens)
    ensures Inv(l, Takes(s, t, op, result, tokens))
  {
    var s' := Takes(s, t, op, result, tokens);
    TakesLegal(l, s, t, op, result, tokens);
    TakesCalls(l, s, t, op, result, tokens);
    forall u | 0 <= u < |s'.threads| ensures ThreadOk(l, s', u) {
      assert ThreadOk(l, s, u);
      if u != t { OthersStayOk(l, s, t, op, result, tokens, u); }
    }
  }

  /** The finished calls keep their effects, and nobody owned the new one. */
  lemma TakesCalls(l: Limits, s: State, t: nat, op: Op, result: bool, tokens: nat)
    requires CallsOwnEffects(s) && t < |s.threads| && ThreadOk(l, s, t)
        && (s.threads[t].Called? || s.threads[t].Loaded?)
    ensures CallsOwnEffects(Takes(s, t, op, result, tokens)) && ThreadOk(l, Takes(s, t, op, result, tokens), t)
  {
  }

  /** A swap that succeeds does what the atomic operation does, even when the bucket
      changed and came back to the value seen (the ABA case). */
  lemma SwapIsAtomic(l: Limits, op: Op, seen: nat)
    requires !DecidedByLoad(l, op, seen)
    ensures Want(l, op, seen) == Apply(l, op, seen) && Answer(op, seen)
  {
  }

  /** A step that takes no effect: a call, a load, a failed swap. */
  lemma QuietStep(l: Limits, s: State, t: nat, m: Micro, s': State)
    requires Inv(l, s) && Step(l, s, t, m, s') && !m.Return? && s'.effects == s.effects
    ensures Inv(l, s')
  {
    assert s.effects[..|s.effects|] == s.effects;
    assert ThreadOk(l, s, t);
    forall u | 0 <= u < |s'.threads| ensures ThreadOk(l, s', u) {
      assert ThreadOk(l, s, u);
    }
  }

  lemma ReturnOwns(l: Limits, s: State, t: nat, s': State)
    requires CallsOwnEffects(s) && t < |s.threads| && ThreadOk(l, s, t) && Step(l, s, t, Return, s')
    ensures CallsOwnEffects(s')
  {
  }

  lemma ReturnOthers(l: Limits, s: State, t: nat, s': State, u: nat)
    requires t < |s.threads| && u < |s.threads| && ThreadOk(l, s, t) && ThreadOk(l, s, u) && Step(l, s, t, Return, s')
    ensures ThreadOk(l, s', u)
  {
    if u != t && s.threads[u].Done? {
      DistinctEffects(l, s, t, u);
    }
  }

  lemma ReturnStep(l: Limits, s: State, t: nat, s': State)
    requires Inv(l, s) && Step(l, s, t, Return, s')
    ensures Inv(l, s')
  {
    assert ThreadOk(l, s, t);
    ReturnOwns(l, s, t, s');
    forall u | 0 <= u < |s'.threads| ensures ThreadOk(l, s', u) {
      assert ThreadOk(l, s, u);
      ReturnOthers(l, s, t, s', u);
    }
  }

  lemma StepKeepsInv(l: Limits, s: State, t: nat, m: Micro, s': State)
    requires Inv(l, s) && Step(l, s, t, m, s')
    ensures Inv(l, s')
  {
    assert ThreadOk(l, s, t);
    if m.Return? {
      ReturnStep(l, s, t, s');
    } else if s'.effects == s.effects {
      QuietStep(l, s, t, m, s');
    } else {
      var op := s.threads[t].op;
      if m.Load? {
        DecidedChangesNothing(l, op, s.tokens);
        TakesKeepsInv(l, s, t, op, Answer(op, s.tokens), s.tokens);
      } else {
        SwapIsAtomic(l, op, s.tokens);
        TakesKeepsInv(l, s, t, op, true, Want(l, op, s.tokens));
      }
    }
  }

  /** Two threads waiting to return own different effects. */
  lemma DistinctEffects(l: Limits, s: State, t: nat, u: nat)
    requires t < |s.threads| && u < |s.threads| && t != u && ThreadOk(l, s, t) && ThreadOk(l, s, u)
    requires s.threads[t].Done? && s.threads[u].Done?
    ensures s.threads[t].index != s.threads[u].index
  {
  }

  lemma InitInv(l: Limits, s: State)
    requires Init(l, s)
    ensures Inv(l, s)
  {
    NothingFound(l, s.effects);
    forall t | 0 <= t < |s.threads| ensures ThreadOk(l, s, t) {
      assert s.threads[t] == Idle;
    }
  }

  lemma NothingFound(l: Limits, effects: seq<Effect>)
    ensures Found(l, effects, 0) == l.max
  {
    assert Ops(effects[..0]) == [];
  }

  lemma {:induction false} RunKeepsInv(l: Limits, run: seq<State>, i: nat)
    requires Run(l, run) && i < |run|
    ensures Inv(l, run[i])
  {
    if i == 0 {
      InitInv(l, run[0]);
    } else {
      RunKeepsInv(l, run, i - 1);
      assert Moves(l, run[i - 1], run[i]);
      var t: nat, m: Micro :| Step(l, run[i - 1], t, m, run[i]);
      StepKeepsInv(l, run[i - 1], t, m, run[i]);
    }
  }

  /** Linearizability. In every interleaving, the effects in order are a legal run of
      the atomic bucket, every finished call is one of them with the result it
      returned, at a moment inside the call; and the bucket never overflows. */
  lemma Linearizable(l: Limits, run: seq<State>, i: nat)
    requires Run(l, run) && i < |run|
    ensures Legal(l, run[i]) && CallsOwnEffects(run[i])
    ensures 0 <= run[i].tokens <= l.max
  {
    RunKeepsInv(l, run, i);
  }

  /** Real-time order: a call that returned before another was invoked takes effect
      before it. */
  lemma RealTimeOrder(l: Limits, run: seq<State>, i: nat, c: nat, d: nat)
    requires Run(l, run) && i < |run| && c < |run[i].calls| && d < |run[i].calls|
    requires run[i].calls[c].returned < run[i].calls[d].invoked
    ensures run[i].calls[c].index < run[i].calls[d].index
  {
    RunKeepsInv(l, run, i);
    EffectsOrdered(l, run[i], run[i].calls[d].index, run[i].calls[c].index);
  }

  lemma EffectsOrdered(l: Limits, s: State, j: nat, k: nat)
    requires Legal(l, s) && j < |s.effects| && k < |s.effects|
    ensures j <= k ==> s.effects[j].at <= s.effects[k].at
  {
  }

  /** Lock freedom: when a swap fails, an operation of another thread has taken effect
      since this thread's load. */
  lemma FailedSwapMeansProgress(l: Limits, run: seq<State>, i: nat, t: nat, s': State)
    requires Run(l, run) && i < |run|
    requires Step(l, run[i], t, Swap, s') && s'.threads[t].Called?
    ensures run[i].threads[t].since < |run[i].effects|
    ensures forall k :: run[i].threads[t].since <= k < |run[i].effects| ==> run[i].effects[k].thread != t
  {
    RunKeepsInv(l, run, i);
    assert ThreadOk(l, run[i], t);
  }
}
