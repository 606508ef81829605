/** The mutable records of the scheduler: one server's context, the counters, the pool. */
module Servers {
  import opened Answers
  import opened ServerState
  import opened Protocol

  /** The record of one loaded server. Its context is cancelled where `disabled` is set. */
  class ServerContext {
    const ipAddress: string
    var disabled: bool
    var failedCount: int
    var completedCount: int
    var nextQueryAt: int
    var pendingChecks: seq<nat>
    var checks: seq<Check>

    function View(): Server
      reads this
    {
      Server(ipAddress, disabled, failedCount, completedCount, nextQueryAt, pendingChecks, checks)
    }

    constructor (ip: string, template: seq<TemplateEntry>, maxAttempts: int)
      ensures View() == NewServer(ip, template, maxAttempts)
    {
      ipAddress, disabled := ip, false;
      failedCount, completedCount, nextQueryAt := 0, 0, 0;
      pendingChecks, checks := [], [];
      new;
      for i := 0 to |template|
        invariant View() == NewServer(ip, template[..i], maxAttempts)
      {
        assert template[..i + 1] == template[..i] + [template[i]];
        pendingChecks := pendingChecks + [i];
        checks := checks + [FirstCheck(template[i], maxAttempts)];
      }
      assert template[..|template|] == template;
    }

    predicate Done()
      reads this
    {
      disabled || completedCount == |checks|
    }
  }

  class StatusReporter {
    var validServers: int
    var invalidServers: int
    var serversWithFailures: int
    var totalChecks: int
    var doneChecks: int
    var output: seq<string>  // the lines of the output file

    function View(): Status
      reads this
    {
      Status(validServers, invalidServers, serversWithFailures, totalChecks, doneChecks, output)
    }

    constructor (numServers: nat, numChecks: nat)
      ensures View() == Status(0, 0, 0, numServers * numChecks, 0, [])
    {
      totalChecks := numServers * numChecks;
      validServers, invalidServers, serversWithFailures, doneChecks := 0, 0, 0, 0;
      output := [];
    }

    method AddDoneChecks(addDone: int, addTotal: int)
      modifies this
      ensures View() == old(View()).(done := old(doneChecks) + addDone, total := old(totalChecks) + addTotal)
    {
      doneChecks := doneChecks + addDone;
      if addTotal != 0 { totalChecks := totalChecks + addTotal; }
    }

    method ReportFinishedServer(srv: ServerContext)
      modifies this
      ensures View() == Reported(old(View()), srv.View())
    {
      if srv.failedCount > 0 { serversWithFailures := serversWithFailures + 1; }
      if srv.disabled {
        invalidServers := invalidServers + 1;
      } else {
        validServers := validServers + 1;
        output := output + [srv.ipAddress];
      }
    }
  }

  /** One result applied to its server: the record moves as Applied says, the counters
      as TotalDelta says. */
  method ApplyResults(srv: ServerContext, res: WorkerResult, srvMaxFailures: int, status: StatusReporter)
    requires res.check < |srv.checks|
    modifies srv, status
    ensures status.doneChecks == old(status.doneChecks) + 1
    ensures ResultApplied(old(srv.View()), srv.View(), res.check, res.reply, srvMaxFailures,
                status.totalChecks - old(status.totalChecks))
    ensures srv.View() == Applied(old(srv.View()), res.check, res.reply, srvMaxFailures)
    ensures status.View() == Counted(old(status.View()),
        TotalDelta(old(srv.View()), res.check, res.reply, srvMaxFailures))
  {
    AppliedMeans(srv.View(), res.check, res.reply, srvMaxFailures);
    var c := res.check;
    var left := srv.checks[c].attemptsLeft - 1;
    srv.checks := srv.checks[c := srv.checks[c].(attemptsLeft := left, answer := res.reply.answer)];
    if res.reply.passed {
      srv.checks := srv.checks[c := srv.checks[c].(passed := true)];
      srv.completedCount := srv.completedCount + 1;
      status.AddDoneChecks(1, 0);
      return;
    }
    if left > 0 && res.reply.retry {
      srv.pendingChecks := [c] + srv.pendingChecks;
      status.AddDoneChecks(1, 1);
      return;
    }
    srv.completedCount := srv.completedCount + 1;
    srv.failedCount := srv.failedCount + 1;
    if srv.failedCount >= srvMaxFailures {
      var cancelledChecks := |srv.checks| - srv.completedCount;
      status.AddDoneChecks(1, -cancelledChecks);
      srv.disabled := true;
    } else {
      status.AddDoneChecks(1, 0);
    }
  }

  function Natural(n: int): nat { if n < 0 then 0 else n }

  class ServerPool {
    const template: seq<TemplateEntry>
    const queue: seq<string>
    const maxPoolSz: nat
    const maxAttempts: nat
    var dequeueIdx: nat
    var pool: map<nat, ServerContext>
    var nextSlot: nat

    /** No two slots share a record, and no slot is ahead of the generator. */
    ghost predicate Valid()
      reads this
    {
      && (forall i, j :: i in pool && j in pool && i != j ==> pool[i] != pool[j])
      && (forall i :: i in pool ==> i < nextSlot)
      && dequeueIdx <= |queue|
    }

    /** The records themselves. */
    function Views(): map<nat, Server>
      reads this, pool.Values
    {
      map i | i in pool :: pool[i].View()
    }

    /** The pool is the one of protocol state s. */
    ghost predicate Shows(cfg: Config, s: State)
      reads this, pool.Values
    {
      && template == cfg.template && queue == cfg.servers && maxPoolSz == cfg.maxPool && maxAttempts == cfg.maxAttempts
      && Views() == s.pool && dequeueIdx == s.dequeueIdx && nextSlot == s.nextSlot
    }

    constructor (maxPoolSz: nat, serverIPs: seq<string>, template: seq<TemplateEntry>, maxAttempts: nat)
      ensures Valid() && pool == map[] && dequeueIdx == 0 && nextSlot == 0
      ensures this.template == template && queue == serverIPs && this.maxPoolSz == maxPoolSz
          && this.maxAttempts == maxAttempts
    {
      this.template, this.queue, this.maxPoolSz, this.maxAttempts := template, serverIPs, maxPoolSz, maxAttempts;
      dequeueIdx, pool, nextSlot := 0, map[], 0;
    }

    function Len(): nat
      reads this
    {
      |pool|
    }

    function NumPendingServers(): int
      reads this
    {
      |queue| - dequeueIdx
    }

    predicate Drained()
      reads this
    {
      Len() == 0 && NumPendingServers() == 0
    }

    predicate IsFull()
      reads this
    {
      Len() == maxPoolSz
    }

    predicate Growable()
      reads this
    {
      !IsFull() && NumPendingServers() > 0
    }

    /** The questions the scheduler asks of the pool have the protocol's answers. */
    lemma Questions(cfg: Config, s: State)
      requires Shows(cfg, s)
      ensures s.pool.Keys == pool.Keys && |s.pool| == Len()
      ensures Growable() <==> Protocol.CanGrow(cfg, s)
      ensures Drained() <==> Protocol.IsDrained(cfg, s)
    {
      assert s.pool.Keys == pool.Keys;
      assert |s.pool| == |s.pool.Keys| && |pool| == |pool.Keys|;
    }

    /** The pool has kept its records and gained only new ones. */
    twostate predicate Grown(was: map<nat, ServerContext>)
      reads this
    {
      && (forall i :: i in was ==> i in pool && pool[i] == was[i])
      && (forall i :: i in pool && i !in was ==> fresh(pool[i]))
    }

    /** The next server of the queue, under a fresh slot id. */
    method LoadNext()
      requires Valid() && NumPendingServers() > 0
      modifies this
      ensures Valid() && Grown(old(pool)) && dequeueIdx == old(dequeueIdx) + 1 && nextSlot == old(nextSlot) + 1
      ensures Views() == old(Views())[old(nextSlot) := NewServer(queue[old(dequeueIdx)], template, maxAttempts)]
    {
      var ip := queue[dequeueIdx];
      dequeueIdx := dequeueIdx + 1;
      var srv := new ServerContext(ip, template, maxAttempts);
      pool := pool[nextSlot := srv];
      nextSlot := nextSlot + 1;
    }

    /** Loads the next server on the way to protocol state goal. */
    method LoadStep(ghost cfg: Config, ghost s: State, ghost n: nat, ghost goal: State)
        returns (ghost t: State, ghost k: nat)
      requires Valid() && Shows(cfg, s) && Growable() && n > 0 && goal == LoadedN(cfg, s, n)
      modifies this
      ensures Valid() && Shows(cfg, t) && k == n - 1 && goal == LoadedN(cfg, t, k)
      ensures Grown(old(pool)) && dequeueIdx == old(dequeueIdx) + 1
    {
      Questions(cfg, s);
      LoadNext();
      t, k := LoadedOne(cfg, s), n - 1;
    }

    lemma LoadStops(cfg: Config, s: State, n: nat)
      requires Shows(cfg, s) && (n == 0 || !Growable())
      ensures LoadedN(cfg, s, n) == s
    {
      Questions(cfg, s);
    }

    /** Loads up to n servers: the pool moves as the protocol's LoadedN, and the number
        of servers loaded is returned. */
    method LoadN(n: int, ghost cfg: Config, ghost s: State) returns (inserted: nat)
      requires Valid() && Shows(cfg, s)
      modifies this
      ensures Valid() && Shows(cfg, LoadedN(cfg, s, Natural(n)))
      ensures inserted == dequeueIdx - old(dequeueIdx) && Grown(old(pool))
    {
      inserted := 0;
      ghost var t, left, goal := s, Natural(n), LoadedN(cfg, s, Natural(n));
      while inserted < n && !IsFull() && NumPendingServers() > 0
        invariant Valid() && Shows(cfg, t) && Grown(old(pool))
        invariant inserted == dequeueIdx - old(dequeueIdx) && left == Natural(n - inserted)
        invariant goal == LoadedN(cfg, t, left)
      {
        t, left := LoadStep(cfg, t, left, goal);
        inserted := inserted + 1;
      }
      LoadStops(cfg, t, left);
    }

    method Get(slot: nat) returns (srv: Option<ServerContext>)
      ensures srv == if slot in pool then Some(pool[slot]) else None
    {
      if slot in pool { srv := Some(pool[slot]); } else { srv := None; }
    }

    method Unload(slot: nat)
      requires Valid()
      modifies this
      ensures Valid() && pool == old(pool) - {slot} && Views() == old(Views()) - {slot}
      ensures dequeueIdx == old(dequeueIdx) && nextSlot == old(nextSlot)
    {
      pool := pool - {slot};
    }
  }
}
