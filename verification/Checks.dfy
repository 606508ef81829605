/** The life of one server's checks: what holds of a loaded server between any two
    steps, and why dispatching and applying a result keep it. */
module Checks {
  import opened ServerState
  import opened Protocol
  import opened Sums

  /* ---- the plain sequential meaning ------------------------------------------ */

  /** A retry loop for one check, started at attempt k: it ends at the first match,
      at the first mismatch not worth retrying, or when the attempts are used up. */
  ghost predicate FinalFrom(cfg: Config, i: nat, c: nat, k: nat)
    decreases cfg.maxAttempts - k
  {
    var reply := cfg.oracle(i, c, k);
    reply.passed || (k + 1 < cfg.maxAttempts && reply.retry && FinalFrom(cfg, i, c, k + 1))
  }

  /** Does server i finally pass check c? */
  ghost predicate Final(cfg: Config, i: nat, c: nat) {
    FinalFrom(cfg, i, c, 0)
  }

  ghost function MismatchBits(cfg: Config, i: nat): nat -> int {
    (c: nat) => Bit(!Final(cfg, i, c))
  }

  /** The number of checks that server i finally fails. */
  ghost function Mismatches(cfg: Config, i: nat): int {
    Sum(NumChecks(cfg), MismatchBits(cfg, i))
  }

  /** The threshold of the drop test; it is only evaluated after a failure. */
  function Threshold(cfg: Config): int {
    if cfg.maxFailures <= 1 then 1 else cfg.maxFailures
  }

  /** The verdict of a plain sequential run over server i. */
  ghost predicate Valid(cfg: Config, i: nat) {
    Mismatches(cfg, i) < Threshold(cfg)
  }

  /* ---- one loaded server --------------------------------------------------------- */

  function Attempted(cfg: Config, chk: Check): int {
    cfg.maxAttempts - chk.attemptsLeft
  }

  /** Check c is pending, or out with a worker or in the Results channel, or done: one
      of the three and only once. `pend` and `out` count its occurrences, `logged` its
      dispatches so far. */
  ghost predicate CheckOk(cfg: Config, i: nat, c: nat, chk: Check, pend: int, out: int, logged: int) {
    && pend >= 0 && out >= 0 && pend + out <= 1
    && 0 <= Attempted(cfg, chk) <= cfg.maxAttempts
    && logged == Attempted(cfg, chk) + out
    && if pend + out == 1
       then Attempted(cfg, chk) < cfg.maxAttempts && !chk.passed
           && FinalFrom(cfg, i, c, Attempted(cfg, chk)) == Final(cfg, i, c)
       else chk.passed == Final(cfg, i, c)
  }

  ghost function DoneBits(srv: Server, out: nat -> int): nat -> int {
    (c: nat) => Bit(Times(srv.pending, c) + out(c) == 0)
  }

  ghost function FailBits(cfg: Config, i: nat, srv: Server, out: nat -> int): nat -> int {
    (c: nat) => Bit(Times(srv.pending, c) + out(c) == 0 && !Final(cfg, i, c))
  }

  /** Every check in its place, and the counters count them. */
  ghost predicate ChecksOk(cfg: Config, i: nat, srv: Server, out: nat -> int, logged: nat -> int) {
    && |srv.checks| == NumChecks(cfg)
    && (forall k :: 0 <= k < |srv.pending| ==> srv.pending[k] < NumChecks(cfg))
    && (forall c: nat :: c < NumChecks(cfg) ==>
          CheckOk(cfg, i, c, srv.checks[c], Times(srv.pending, c), out(c), logged(c)))
    && srv.completed == Sum(NumChecks(cfg), DoneBits(srv, out))
    && srv.failed == Sum(NumChecks(cfg), FailBits(cfg, i, srv, out))
  }

  /** Loaded and not finished. */
  ghost predicate ServerOk(cfg: Config, i: nat, srv: Server, out: nat -> int, logged: nat -> int) {
    && i < NumServers(cfg) && srv.ip == cfg.servers[i]
    && ChecksOk(cfg, i, srv, out, logged)
    && !srv.disabled && srv.completed < NumChecks(cfg) && srv.failed < Threshold(cfg)
  }

  lemma ChecksFrame(cfg: Config, i: nat, srv: Server, out: nat -> int, logged: nat -> int, out': nat -> int,
      logged': nat -> int)
    requires ChecksOk(cfg, i, srv, out, logged)
    requires forall c: nat :: c < NumChecks(cfg) ==> out'(c) == out(c) && logged'(c) == logged(c)
    ensures ChecksOk(cfg, i, srv, out', logged')
  {
    SumEqual(NumChecks(cfg), DoneBits(srv, out), DoneBits(srv, out'));
    SumEqual(NumChecks(cfg), FailBits(cfg, i, srv, out), FailBits(cfg, i, srv, out'));
  }

  lemma FreshTimes(n: nat, s: seq<nat>, c: nat)
    requires |s| == n && c < n && forall k :: 0 <= k < n ==> s[k] == k
    ensures Times(s, c) == 1
    decreases n
  {
    var last := n - 1;
    assert s == s[..last] + [last];
    if c == last {
      assert last !in s[..last];
    } else {
      FreshTimes(last, s[..last], c);
    }
  }

  /** A freshly loaded server. */
  lemma FreshServerOk(cfg: Config, i: nat, out: nat -> int, logged: nat -> int)
    requires GoodConfig(cfg) && i < NumServers(cfg)
    requires forall c: nat :: c < NumChecks(cfg) ==> out(c) == 0 && logged(c) == 0
    ensures ServerOk(cfg, i, NewServer(cfg.servers[i], cfg.template, cfg.maxAttempts), out, logged)
  {
    var srv := NewServer(cfg.servers[i], cfg.template, cfg.maxAttempts);
    forall c: nat | c < NumChecks(cfg) ensures Times(srv.pending, c) == 1 {
      FreshTimes(NumChecks(cfg), srv.pending, c);
    }
    SumZero(NumChecks(cfg), DoneBits(srv, out));
    SumZero(NumChecks(cfg), FailBits(cfg, i, srv, out));
  }

  /** CompletedCount + |PendingChecks| + outstanding == |Checks|. */
  lemma CountsAddUp(cfg: Config, i: nat, srv: Server, out: nat -> int, logged: nat -> int)
    requires ChecksOk(cfg, i, srv, out, logged)
    ensures srv.completed + |srv.pending| + Sum(NumChecks(cfg), out) == NumChecks(cfg)
    ensures srv.completed == NumChecks(cfg) ==>
              forall c: nat :: c < NumChecks(cfg) ==> Times(srv.pending, c) == 0 && out(c) == 0
  {
    var n := NumChecks(cfg);
    var pend := (c: nat) => Times(srv.pending, c) as int;
    var both := (c: nat) => Times(srv.pending, c) + out(c);
    var one := (c: nat) => 1;
    SumOfCounts(n, srv.pending, pend);
    SumOfSums(n, pend, out, both);
    forall c: nat | c < n ensures one(c) == DoneBits(srv, out)(c) + both(c) {
      assert CheckOk(cfg, i, c, srv.checks[c], Times(srv.pending, c), out(c), logged(c));
    }
    SumOfSums(n, DoneBits(srv, out), both, one);
    SumBounds(n, one, 1, 1);
    SumFull(n, DoneBits(srv, out));
  }

  /** FailedCount plus the checks passed is CompletedCount. */
  lemma FailedPlusPassed(cfg: Config, i: nat, srv: Server, out: nat -> int, logged: nat -> int)
    requires ChecksOk(cfg, i, srv, out, logged)
    ensures srv.failed + Sum(NumChecks(cfg), (c: nat) => Bit(c < |srv.checks| && srv.checks[c].passed)) == srv.completed
    ensures 0 <= srv.failed <= Mismatches(cfg, i)
    ensures srv.completed == NumChecks(cfg) ==> srv.failed == Mismatches(cfg, i)
  {
    var n := NumChecks(cfg);
    var passed := (c: nat) => Bit(c < |srv.checks| && srv.checks[c].passed);
    forall c: nat | c < n ensures DoneBits(srv, out)(c) == FailBits(cfg, i, srv, out)(c) + passed(c) {
      assert CheckOk(cfg, i, c, srv.checks[c], Times(srv.pending, c), out(c), logged(c));
    }
    SumOfSums(n, FailBits(cfg, i, srv, out), passed, DoneBits(srv, out));
    SumZero(n, FailBits(cfg, i, srv, out));
    SumAtMost(n, FailBits(cfg, i, srv, out), MismatchBits(cfg, i));
    if srv.completed == n {
      CountsAddUp(cfg, i, srv, out, logged);
      SumEqual(n, FailBits(cfg, i, srv, out), MismatchBits(cfg, i));
    }
  }

  /* ---- dispatching ------------------------------------------------------------------ */

  /** The front check leaves the queue and goes out; nothing else moves. */
  lemma DispatchKeepsChecks(cfg: Config, i: nat, srv: Server, at: int,
                            out: nat -> int, logged: nat -> int, out': nat -> int, logged': nat -> int)
    requires ChecksOk(cfg, i, srv, out, logged) && |srv.pending| > 0
    requires forall c: nat :: c < NumChecks(cfg) ==>
               out'(c) == out(c) + Bit(c == srv.pending[0]) && logged'(c) == logged(c) + Bit(c == srv.pending[0])
    ensures ChecksOk(cfg, i, FrontTaken(srv, at), out', logged')
  {
    var srv' := FrontTaken(srv, at);
    var front := srv.pending[0];
    assert srv.pending == [front] + srv.pending[1..];
    assert forall c: nat :: Times(srv.pending, c) == Bit(c == front) + Times(srv'.pending, c);
    forall c: nat | c < NumChecks(cfg)
      ensures CheckOk(cfg, i, c, srv'.checks[c], Times(srv'.pending, c), out'(c), logged'(c))
    {
      assert CheckOk(cfg, i, c, srv.checks[c], Times(srv.pending, c), out(c), logged(c));
    }
    SumEqual(NumChecks(cfg), DoneBits(srv, out), DoneBits(srv', out'));
    SumEqual(NumChecks(cfg), FailBits(cfg, i, srv, out), FailBits(cfg, i, srv', out'));
  }

  /* ---- applying a result --------------------------------------------------------------- */

  /** The verdict on check c is the same before and after one more attempt, or it is
      reached with this reply. */
  lemma OneAttempt(cfg: Config, i: nat, srv: Server, c: nat, reply: Reply)
    requires c < |srv.checks| && 0 <= Attempted(cfg, srv.checks[c]) < cfg.maxAttempts
    requires reply == cfg.oracle(i, c, Attempted(cfg, srv.checks[c]))
    ensures var k := Attempted(cfg, srv.checks[c]);
            match OutcomeOf(srv, c, reply)
            case Passes => FinalFrom(cfg, i, c, k)
            case Retries => k + 1 < cfg.maxAttempts && FinalFrom(cfg, i, c, k) == FinalFrom(cfg, i, c, k + 1)
            case Fails => !FinalFrom(cfg, i, c, k)
  {
  }

  /** What one reply does to the queue and to the check it is about. */
  lemma AppliedQueue(cfg: Config, srv: Server, c: nat, reply: Reply, d: nat)
    requires c < |srv.checks| && d < |srv.checks|
    ensures var srv' := Applied(srv, c, reply, cfg.maxFailures);
            && Times(srv'.pending, d) == Times(srv.pending, d) + Bit(d == c && OutcomeOf(srv, c, reply).Retries?)
            && (d != c ==> srv'.checks[d] == srv.checks[d])
            && Attempted(cfg, srv'.checks[c]) == Attempted(cfg, srv.checks[c]) + 1
            && srv'.checks[c].passed == (srv.checks[c].passed || OutcomeOf(srv, c, reply).Passes?)
  {
    assert multiset([c] + srv.pending) == multiset{c} + multiset(srv.pending);
  }

  lemma AppliedCheck(cfg: Config, i: nat, srv: Server, c: nat, reply: Reply, d: nat, pend: int, out: int, logged: int)
    requires |srv.checks| == NumChecks(cfg) && c < NumChecks(cfg) && d < NumChecks(cfg) && pend == Times(srv.pending, d)
    requires CheckOk(cfg, i, d, srv.checks[d], pend, out, logged) && (d == c ==> out == 1)
    requires 0 <= Attempted(cfg, srv.checks[c])
    requires reply == cfg.oracle(i, c, Attempted(cfg, srv.checks[c]))
    ensures var srv' := Applied(srv, c, reply, cfg.maxFailures);
            && CheckOk(cfg, i, d, srv'.checks[d], Times(srv'.pending, d), out - Bit(d == c), logged)
            && (d != c ==> Times(srv'.pending, d) == pend)
            && (d == c ==> Times(srv'.pending, d) == Bit(OutcomeOf(srv, c, reply).Retries?))
            && (d == c ==> match OutcomeOf(srv, c, reply)
                           case Passes => Final(cfg, i, c)
                           case Retries => true
                           case Fails => !Final(cfg, i, c))
  {
    AppliedQueue(cfg, srv, c, reply, d);
    if d == c {
      OneAttempt(cfg, i, srv, c, reply);
    }
  }

  /** The two counters after one reply: `gone` says that check c is now done, `failed`
      that it is done and failed. */
  lemma AppliedSums(cfg: Config, i: nat, srv: Server, srv': Server, c: nat, gone: bool, failed: bool,
                    out: nat -> int, out': nat -> int)
    requires c < NumChecks(cfg)
    requires forall d: nat :: d < NumChecks(cfg) && d != c ==>
               Times(srv'.pending, d) == Times(srv.pending, d) && out'(d) == out(d)
    requires Times(srv.pending, c) == 0 && out(c) == 1 && out'(c) == 0
    requires Times(srv'.pending, c) == Bit(!gone) && (failed <==> gone && !Final(cfg, i, c))
    ensures Sum(NumChecks(cfg), DoneBits(srv', out')) == Sum(NumChecks(cfg), DoneBits(srv, out)) + Bit(gone)
    ensures Sum(NumChecks(cfg), FailBits(cfg, i, srv', out')) ==
            Sum(NumChecks(cfg), FailBits(cfg, i, srv, out)) + Bit(failed)
  {
    SumChange(NumChecks(cfg), DoneBits(srv, out), DoneBits(srv', out'), c);
    SumChange(NumChecks(cfg), FailBits(cfg, i, srv, out), FailBits(cfg, i, srv', out'), c);
  }

  lemma AppliedCounters(srv: Server, c: nat, reply: Reply, maxFailures: int)
    requires c < |srv.checks|
    ensures var srv', o := Applied(srv, c, reply, maxFailures), OutcomeOf(srv, c, reply);
            && srv'.completed == srv.completed + Bit(!o.Retries?) && srv'.failed == srv.failed + Bit(o.Fails?)
            && srv'.ip == srv.ip
            && srv'.disabled == (srv.disabled || (o.Fails? && srv.failed + 1 >= maxFailures))
            && (forall d :: d in srv'.pending ==> d == c || d in srv.pending)
  {
  }

  lemma AppliedChecks(cfg: Config, i: nat, srv: Server, c: nat, reply: Reply,
                      out: nat -> int, logged: nat -> int, out': nat -> int)
    requires ChecksOk(cfg, i, srv, out, logged) && c < NumChecks(cfg) && out(c) == 1
    requires 0 <= Attempted(cfg, srv.checks[c]) && reply == cfg.oracle(i, c, Attempted(cfg, srv.checks[c]))
    requires forall d: nat :: d < NumChecks(cfg) ==> out'(d) == out(d) - Bit(d == c)
    ensures ChecksOk(cfg, i, Applied(srv, c, reply, cfg.maxFailures), out', logged)
  {
    var srv' := Applied(srv, c, reply, cfg.maxFailures);
    var o := OutcomeOf(srv, c, reply);
    forall d: nat | d < NumChecks(cfg)
      ensures CheckOk(cfg, i, d, srv'.checks[d], Times(srv'.pending, d), out'(d), logged(d))
      ensures d != c ==> Times(srv'.pending, d) == Times(srv.pending, d)
    {
      AppliedCheck(cfg, i, srv, c, reply, d, Times(srv.pending, d), out(d), logged(d));
    }
    AppliedCheck(cfg, i, srv, c, reply, c, Times(srv.pending, c), out(c), logged(c));
    AppliedSums(cfg, i, srv, srv', c, !o.Retries?, o.Fails?, out, out');
    AppliedCounters(srv, c, reply, cfg.maxFailures);
  }

  /** Applying a result keeps an unfinished server in order, and a server it finishes
      has the sequential verdict: disabled exactly when it is not valid. */
  lemma AppliedServer(cfg: Config, i: nat, srv: Server, c: nat, reply: Reply,
                      out: nat -> int, logged: nat -> int, out': nat -> int)
    requires ServerOk(cfg, i, srv, out, logged) && c < NumChecks(cfg) && out(c) == 1
    requires 0 <= Attempted(cfg, srv.checks[c])
    requires reply == cfg.oracle(i, c, Attempted(cfg, srv.checks[c]))
    requires forall d: nat :: d < NumChecks(cfg) ==> out'(d) == out(d) - Bit(d == c)
    ensures var srv' := Applied(srv, c, reply, cfg.maxFailures);
            && ChecksOk(cfg, i, srv', out', logged) && srv'.ip == srv.ip
            && (!Finished(srv') ==> ServerOk(cfg, i, srv', out', logged))
            && (Finished(srv') ==>
                  && (srv'.disabled <==> !Valid(cfg, i))
                  && (srv'.failed > 0 <==> Mismatches(cfg, i) > 0)
                  && (!srv'.disabled ==> forall d: nat :: d < NumChecks(cfg) ==> out'(d) == 0))
  {
    var srv' := Applied(srv, c, reply, cfg.maxFailures);
    AppliedChecks(cfg, i, srv, c, reply, out, logged, out');
    FailedPlusPassed(cfg, i, srv, out, logged);
    FailedPlusPassed(cfg, i, srv', out', logged);
    CountsAddUp(cfg, i, srv', out', logged);
    SumFull(NumChecks(cfg), DoneBits(srv', out'));
  }
}
