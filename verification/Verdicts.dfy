/** What the program reports does not depend on the schedule. */
module Verdicts {
  import opened RoundTrip
  import opened Answers
  import opened ServerState
  import opened Sums
  import opened Protocol
  import opened Checks
  import opened Invariant
  import opened Safety

  /* ---- the sequential reference ------------------------------------------------ */

  function Range(n: nat): (r: seq<nat>)
    ensures |r| == n && forall i :: 0 <= i < n ==> r[i] == i
  {
    if n == 0 then [] else Range(n - 1) + [n - 1]
  }

  /** The lines a plain loop over the server list would write: each server whose
      mismatches stay under the threshold, in list order. */
  ghost function SequentialOutput(cfg: Config): seq<string> {
    OutputOf(cfg, Range(NumServers(cfg)))
  }

  /** A check is finally passed when some attempt within the limit matches and every
      earlier one was a mismatch worth retrying. */
  ghost predicate PassesAt(cfg: Config, i: nat, c: nat, from: nat, k: nat) {
    && from <= k && (k == from || k < cfg.maxAttempts) && cfg.oracle(i, c, k).passed
    && forall j: nat :: from <= j < k ==> !cfg.oracle(i, c, j).passed && cfg.oracle(i, c, j).retry
  }

  lemma {:induction false} FinalFromMeans(cfg: Config, i: nat, c: nat, from: nat)
    requires from < cfg.maxAttempts
    ensures FinalFrom(cfg, i, c, from) <==> exists k: nat :: PassesAt(cfg, i, c, from, k)
    decreases cfg.maxAttempts - from
  {
    var reply, next := cfg.oracle(i, c, from), from + 1;
    if reply.passed {
      assert PassesAt(cfg, i, c, from, from);
    } else if next < cfg.maxAttempts && reply.retry {
      FinalFromMeans(cfg, i, c, next);
      if k: nat :| PassesAt(cfg, i, c, from, k) {
        assert PassesAt(cfg, i, c, next, k);
      }
      if k: nat :| PassesAt(cfg, i, c, next, k) {
        assert PassesAt(cfg, i, c, from, k);
      }
    }
  }

  /** A timeout, a server failure, or a success that was cut short. */
  predicate Transient(answer: Option<DNSAnswer>) {
    && answer.Some?
    && (|| answer.value.data.status == "TIMEOUT"
        || answer.value.data.status == "SERVFAIL"
        || (answer.value.data.status == "NOERROR" && answer.value.truncated))
  }

  lemma TransientIsRetried(answer: Option<DNSAnswer>)
    ensures Transient(answer) <==> IsWorthRetrying(answer)
  {
    if answer.Some? { WorthRetrying(answer.value); }
  }

  /** What a worker makes of the answer it received. */
  method Judge(te: TemplateEntry, answer: Option<DNSAnswer>) returns (reply: Reply)
    ensures reply.answer == answer
    ensures reply.passed <==> EntryMatches(Some(te), answer)
    ensures reply.retry <==> Transient(answer)
    ensures reply.retry <==> IsWorthRetrying(answer)
  {
    TransientIsRetried(answer);
    var passed := Matches(Some(te), answer);
    reply := Reply(answer, passed, IsWorthRetrying(answer));
  }

  /** The replies are what the matcher and the retry rule say about the answers. */
  ghost predicate Faithful(cfg: Config) {
    forall i: nat, c: nat, k: nat :: c < NumChecks(cfg) ==>
      var reply := cfg.oracle(i, c, k);
      && (reply.passed <==> EntryMatches(Some(cfg.template[c]), reply.answer))
      && (reply.retry <==> IsWorthRetrying(reply.answer))
  }

  ghost predicate AnswerMatches(cfg: Config, i: nat, c: nat, k: nat)
    requires c < NumChecks(cfg)
  {
    EntryMatches(Some(cfg.template[c]), cfg.oracle(i, c, k).answer)
  }

  /** Attempt k matches the template entry and every earlier answer was a mismatch that
      is worth retrying. */
  ghost predicate FirstMatchAt(cfg: Config, i: nat, c: nat, k: nat)
    requires c < NumChecks(cfg)
  {
    && k < cfg.maxAttempts && AnswerMatches(cfg, i, c, k)
    && forall j: nat :: j < k ==> !AnswerMatches(cfg, i, c, j) && IsWorthRetrying(cfg.oracle(i, c, j).answer)
  }

  /** Server i finally passes check c exactly when one of the allowed attempts is a first
      match. */
  lemma FinalMeans(cfg: Config, i: nat, c: nat)
    requires GoodConfig(cfg) && Faithful(cfg) && c < NumChecks(cfg)
    ensures Final(cfg, i, c) <==> exists k: nat :: FirstMatchAt(cfg, i, c, k)
  {
    FinalFromMeans(cfg, i, c, 0);
    forall k: nat ensures FirstMatchAt(cfg, i, c, k) <==> PassesAt(cfg, i, c, 0, k) {
    }
  }

  /** Attempt k is a mismatch that asks for another attempt. */
  ghost predicate TransientMismatch(cfg: Config, i: nat, c: nat, k: nat)
    requires c < NumChecks(cfg)
  {
    !AnswerMatches(cfg, i, c, k) && Transient(cfg.oracle(i, c, k).answer)
  }

  ghost predicate MatchAfterTransients(cfg: Config, i: nat, c: nat, k: nat)
    requires c < NumChecks(cfg)
  {
    && k < cfg.maxAttempts && AnswerMatches(cfg, i, c, k)
    && forall j: nat :: j < k ==> TransientMismatch(cfg, i, c, j)
  }

  /** The same with the statuses written out: a check is finally passed exactly when one of
      the allowed attempts matches and all before it were mismatching timeouts, server
      failures or truncated successes. */
  lemma FinalByStatus(cfg: Config, i: nat, c: nat)
    requires GoodConfig(cfg) && Faithful(cfg) && c < NumChecks(cfg)
    ensures Final(cfg, i, c) <==> exists k: nat :: MatchAfterTransients(cfg, i, c, k)
  {
    FinalMeans(cfg, i, c);
    forall k: nat ensures FirstMatchAt(cfg, i, c, k) <==> MatchAfterTransients(cfg, i, c, k) {
      forall j: nat ensures TransientMismatch(cfg, i, c, j) <==>
                            !AnswerMatches(cfg, i, c, j) && IsWorthRetrying(cfg.oracle(i, c, j).answer) {
        TransientIsRetried(cfg.oracle(i, c, j).answer);
      }
    }
  }

  /** A mismatch of any other status, or an untruncated success that does not match, is
      final if no match came before it; so is the last allowed attempt. */
  lemma GivenUp(cfg: Config, i: nat, c: nat, k: nat)
    requires GoodConfig(cfg) && Faithful(cfg) && c < NumChecks(cfg)
    requires forall j: nat :: j <= k ==> !AnswerMatches(cfg, i, c, j)
    requires !Transient(cfg.oracle(i, c, k).answer) || k + 1 >= cfg.maxAttempts
    ensures !Final(cfg, i, c)
  {
    FinalByStatus(cfg, i, c);
    forall m: nat ensures !MatchAfterTransients(cfg, i, c, m) {
      if m > k && m < cfg.maxAttempts { assert !TransientMismatch(cfg, i, c, k); }
    }
  }

  /* ---- reports in any order -------------------------------------------------------- */

  ghost function LineOf(cfg: Config, i: nat): seq<string> {
    if i < NumServers(cfg) && Valid(cfg, i) then [cfg.servers[i]] else []
  }

  lemma OutputAdd(cfg: Config, p: seq<nat>, i: nat)
    ensures OutputOf(cfg, p + [i]) == OutputOf(cfg, p) + LineOf(cfg, i)
    ensures WithMismatch(cfg, p + [i]) == WithMismatch(cfg, p) + Bit(Mismatches(cfg, i) > 0)
  {
    assert (p + [i])[..|p|] == p;
  }

  ghost function Lines(cfg: Config, p: seq<nat>): multiset<string> {
    multiset(OutputOf(cfg, p))
  }

  lemma LinesAdd(cfg: Config, p: seq<nat>, i: nat)
    ensures Lines(cfg, p + [i]) == Lines(cfg, p) + multiset(LineOf(cfg, i))
  {
    OutputAdd(cfg, p, i);
  }

  lemma SwapLast(a: multiset<string>, b: multiset<string>, c: multiset<string>)
    ensures (a + b) + c == (a + c) + b
  {
  }

  /** Taking one item out of a list takes its share out of any multiset built item by item. */
  lemma {:induction false} ShareDrop(all: seq<nat> -> multiset<string>, share: nat -> multiset<string>,
      p: seq<nat>, k: nat)
    requires k < |p|
    requires forall q: seq<nat>, i: nat :: all(q + [i]) == all(q) + share(i)
    ensures all(p) == all(Drop(p, k)) + share(p[k])
    decreases |p|
  {
    var n := |p| - 1;
    var front, last := p[..n], p[n];
    assert p == front + [last];
    if k == n {
      assert Drop(p, k) == front;
    } else {
      ShareDrop(all, share, front, k);
      var rest := Drop(front, k);
      assert Drop(p, k) == rest + [last];
      SwapLast(all(rest), share(p[k]), share(last));
    }
  }

  lemma LinesDrop(cfg: Config, p: seq<nat>, k: nat)
    requires k < |p|
    ensures Lines(cfg, p) == Lines(cfg, Drop(p, k)) + multiset(LineOf(cfg, p[k]))
  {
    var all := (q: seq<nat>) => Lines(cfg, q);
    var share := (i: nat) => multiset(LineOf(cfg, i));
    forall q: seq<nat>, i: nat ensures all(q + [i]) == all(q) + share(i) {
      LinesAdd(cfg, q, i);
    }
    ShareDrop(all, share, p, k);
  }

  lemma {:induction false} MismatchDrop(cfg: Config, p: seq<nat>, k: nat)
    requires k < |p|
    ensures WithMismatch(cfg, p) == WithMismatch(cfg, Drop(p, k)) + Bit(Mismatches(cfg, p[k]) > 0)
    decreases |p|
  {
    var n := |p| - 1;
    if k == n {
      assert Drop(p, k) == p[..n];
    } else {
      MismatchDrop(cfg, p[..n], k);
      assert Drop(p, k) == Drop(p[..n], k) + [p[n]];
      OutputAdd(cfg, Drop(p[..n], k), p[n]);
    }
  }

  ghost predicate NoRepeats(p: seq<nat>) {
    forall a, b :: 0 <= a < b < |p| ==> p[a] != p[b]
  }

  ghost predicate SameMembers(p: seq<nat>, q: seq<nat>) {
    forall i: nat :: i in p <==> i in q
  }

  lemma DropOne(p: seq<nat>, q: seq<nat>, k: nat)
    requires NoRepeats(p) && NoRepeats(q) && SameMembers(p, q) && |q| > 0 && k < |p| && p[k] == q[|q| - 1]
    ensures NoRepeats(Drop(p, k)) && NoRepeats(q[..|q| - 1]) && SameMembers(Drop(p, k), q[..|q| - 1])
  {
    var p', q' := Drop(p, k), q[..|q| - 1];
    assert forall j :: 0 <= j < |p'| ==> p'[j] == p[if j < k then j else j + 1];
    forall i: nat ensures i in p' <==> i in q' {
      assert i in p' <==> i in p && i != p[k] by {
        if i in p && i != p[k] {
          var j :| 0 <= j < |p| && p[j] == i;
          assert p'[if j < k then j else j - 1] == i;
        }
      }
      assert q == q' + [q[|q| - 1]];
    }
  }

  lemma FirstIsMember(p: seq<nat>)
    ensures p == [] || p[0] in p
  {
  }

  /** Two orders of the same reports write the same lines, as multisets. */
  lemma {:induction false} OrderOfReports(cfg: Config, p: seq<nat>, q: seq<nat>)
    requires NoRepeats(p) && NoRepeats(q) && SameMembers(p, q)
    ensures Lines(cfg, p) == Lines(cfg, q)
    ensures WithMismatch(cfg, p) == WithMismatch(cfg, q) && |p| == |q|
    decreases |q|
  {
    if q == [] {
      FirstIsMember(p);
    } else {
      var n := |q| - 1;
      assert q[n] in p;
      var k: nat :| k < |p| && p[k] == q[n];
      DropOne(p, q, k);
      OrderOfReports(cfg, Drop(p, k), q[..n]);
      LinesDrop(cfg, p, k);
      MismatchDrop(cfg, p, k);
      assert q == q[..n] + [q[n]];
      LinesAdd(cfg, q[..n], q[n]);
      OutputAdd(cfg, q[..n], q[n]);
    }
  }

  /* ---- the theorem ------------------------------------------------------------------------ */

  /** The final figures of a plain sequential run. */
  ghost predicate SequentialFigures(cfg: Config, st: Status) {
    && multiset(st.output) == multiset(SequentialOutput(cfg))
    && st.valid == |SequentialOutput(cfg)|
    && st.invalid == NumServers(cfg) - |SequentialOutput(cfg)|
    && st.withFailures == WithMismatch(cfg, Range(NumServers(cfg)))
    && st.done == st.total
  }

  ghost function LineBits(cfg: Config, x: string): nat -> int {
    (i: nat) => Bit(i < NumServers(cfg) && cfg.servers[i] == x && Valid(cfg, i))
  }

  ghost function FailureBits(cfg: Config): nat -> int {
    (i: nat) => Bit(exists c: nat :: c < NumChecks(cfg) && !Final(cfg, i, c))
  }

  ghost function ValidBits(cfg: Config): nat -> int {
    (i: nat) => Bit(Mismatches(cfg, i) == 0 || Mismatches(cfg, i) < cfg.maxFailures)
  }

  /** What the sequential figures count: the servers without a failed check or with fewer
      than the limit, each written as often as it is listed, and those with a failed check. */
  lemma SequentialMeans(cfg: Config, x: string)
    ensures multiset(SequentialOutput(cfg))[x] == Sum(NumServers(cfg), LineBits(cfg, x))
    ensures |SequentialOutput(cfg)| == Sum(NumServers(cfg), ValidBits(cfg))
    ensures WithMismatch(cfg, Range(NumServers(cfg))) == Sum(NumServers(cfg), FailureBits(cfg))
  {
    var n := NumServers(cfg);
    BitsAre(cfg, x);
    LinesCounted(cfg, x, LineBits(cfg, x), ValidBits(cfg), n);
    FailuresCounted(cfg, FailureBits(cfg), n);
  }

  lemma BitsAre(cfg: Config, x: string)
    ensures forall i: nat :: i < NumServers(cfg) ==> LineBits(cfg, x)(i) == multiset(LineOf(cfg, i))[x]
    ensures forall i: nat :: i < NumServers(cfg) ==> ValidBits(cfg)(i) == |LineOf(cfg, i)|
    ensures forall i: nat :: FailureBits(cfg)(i) == Bit(Mismatches(cfg, i) > 0)
  {
    forall i: nat ensures FailureBits(cfg)(i) == Bit(Mismatches(cfg, i) > 0) {
      MismatchRange(cfg, i);
    }
    forall i: nat | i < NumServers(cfg)
      ensures LineBits(cfg, x)(i) == multiset(LineOf(cfg, i))[x] && ValidBits(cfg)(i) == |LineOf(cfg, i)|
    {
      OneServer(cfg, x, i);
    }
  }

  lemma OneServer(cfg: Config, x: string, i: nat)
    requires i < NumServers(cfg)
    ensures LineBits(cfg, x)(i) == multiset(LineOf(cfg, i))[x] && ValidBits(cfg)(i) == |LineOf(cfg, i)|
  {
    MismatchRange(cfg, i);
    if Valid(cfg, i) { assert multiset(LineOf(cfg, i)) == multiset{cfg.servers[i]}; }
  }

  /** A text put together of parts: its lines and its length are counted part by part. */
  lemma {:induction false} PartsCounted(whole: nat -> seq<string>, part: nat -> seq<string>, x: string,
      lines: nat -> int, sizes: nat -> int, n: nat)
    requires whole(0) == [] && forall i: nat :: i < n ==> whole(i + 1) == whole(i) + part(i)
    requires forall i: nat :: i < n ==> lines(i) == multiset(part(i))[x] && sizes(i) == |part(i)|
    ensures multiset(whole(n))[x] == Sum(n, lines) && |whole(n)| == Sum(n, sizes)
  {
    if n > 0 {
      PartsCounted(whole, part, x, lines, sizes, n - 1);
      assert whole(n - 1 + 1) == whole(n - 1) + part(n - 1);
      Appended(whole(n - 1), part(n - 1), x);
    }
  }

  lemma Appended(a: seq<string>, b: seq<string>, x: string)
    ensures multiset(a + b)[x] == multiset(a)[x] + multiset(b)[x]
  {
  }

  lemma LinesCounted(cfg: Config, x: string, lines: nat -> int, sizes: nat -> int, n: nat)
    requires forall i: nat :: i < n ==> lines(i) == multiset(LineOf(cfg, i))[x] && sizes(i) == |LineOf(cfg, i)|
    ensures multiset(OutputOf(cfg, Range(n)))[x] == Sum(n, lines) && |OutputOf(cfg, Range(n))| == Sum(n, sizes)
  {
    var whole, part := (i: nat) => OutputOf(cfg, Range(i)), (i: nat) => LineOf(cfg, i);
    forall i: nat | i < n ensures whole(i + 1) == whole(i) + part(i) {
      assert Range(i + 1) == Range(i) + [i];
      OutputAdd(cfg, Range(i), i);
    }
    PartsCounted(whole, part, x, lines, sizes, n);
  }

  lemma {:induction false} FailuresCounted(cfg: Config, f: nat -> int, n: nat)
    requires forall i: nat :: i < n ==> f(i) == Bit(Mismatches(cfg, i) > 0)
    ensures WithMismatch(cfg, Range(n)) == Sum(n, f)
  {
    if n > 0 {
      FailuresCounted(cfg, f, n - 1);
      OutputAdd(cfg, Range(n - 1), n - 1);
    }
  }

  /** Once the scheduler has left its loop the counters are final: every server was
      reported exactly once with its sequential verdict, and the books are balanced. */
  lemma FinalFigures(cfg: Config, run: seq<State>, i: nat)
    requires Behaviour(cfg, run) && i < |run| && run[i].phase == Waiting
    ensures SequentialFigures(cfg, run[i].status)
    ensures NoRepeats(run[i].reported) && SameMembers(run[i].reported, Range(NumServers(cfg)))
  {
    Always(cfg, run, i);
    var s := run[i];
    AllReported(cfg, s);
    ReportedFigures(cfg, s);
    SumZero(NumServers(cfg), LeftOf(cfg, s.pool, s.nextSlot));
  }

  lemma AllReported(cfg: Config, s: State)
    requires PoolOk(cfg, s) && ReportsOk(cfg, s) && IsDrained(cfg, s)
    ensures NoRepeats(s.reported) && SameMembers(s.reported, Range(NumServers(cfg)))
    ensures s.pool == map[] && s.nextSlot == NumServers(cfg)
  {
    forall j: nat ensures j in s.reported <==> j in Range(NumServers(cfg)) {
      if j < NumServers(cfg) { assert Range(NumServers(cfg))[j] == j; }
    }
  }

  lemma ReportedFigures(cfg: Config, s: State)
    requires ReportsOk(cfg, s) && NoRepeats(s.reported) && SameMembers(s.reported, Range(NumServers(cfg)))
    ensures multiset(s.status.output) == multiset(SequentialOutput(cfg))
    ensures s.status.valid == |SequentialOutput(cfg)|
    ensures s.status.invalid == NumServers(cfg) - |SequentialOutput(cfg)|
    ensures s.status.withFailures == WithMismatch(cfg, Range(NumServers(cfg)))
  {
    OrderOfReports(cfg, s.reported, Range(NumServers(cfg)));
    SameSize(s.status.output, SequentialOutput(cfg));
  }

  lemma SameSize(a: seq<string>, b: seq<string>)
    requires multiset(a) == multiset(b)
    ensures |a| == |b|
  {
    assert |a| == |multiset(a)| == |multiset(b)| == |b|;
  }

  /** The two settings differ at most in how fast the work is done: pool and thread
      limits, request rates. */
  ghost predicate SameQuestions(a: Config, b: Config) {
    b == a.(maxPool := b.maxPool, maxThreads := b.maxThreads, limits := b.limits, interval := b.interval)
  }

  lemma SameVerdict(a: Config, b: Config, i: nat)
    requires SameQuestions(a, b)
    ensures Mismatches(a, i) == Mismatches(b, i) && Valid(a, i) == Valid(b, i)
  {
    SameMismatches(a, b, i);
  }

  lemma {:induction false} SameLines(a: Config, b: Config, p: seq<nat>)
    requires SameQuestions(a, b)
    ensures OutputOf(a, p) == OutputOf(b, p) && WithMismatch(a, p) == WithMismatch(b, p)
  {
    if p != [] {
      SameLines(a, b, p[..|p| - 1]);
      SameVerdict(a, b, p[|p| - 1]);
    }
  }

  /** Schedule independence: any two runs over the same network write the same lines and
      end with the same counts of valid, invalid and failing servers, whatever the pool,
      thread and rate limits of each. */
  lemma ScheduleIndependence(a: Config, b: Config, run1: seq<State>, run2: seq<State>)
    requires SameQuestions(a, b) && Behaviour(a, run1) && Behaviour(b, run2)
    requires run1[|run1| - 1].phase == Waiting && run2[|run2| - 1].phase == Waiting
    ensures var s, t := run1[|run1| - 1].status, run2[|run2| - 1].status;
            && multiset(s.output) == multiset(t.output)
            && s.valid == t.valid && s.invalid == t.invalid && s.withFailures == t.withFailures
            && s.done == s.total && t.done == t.total
  {
    FinalFigures(a, run1, |run1| - 1);
    FinalFigures(b, run2, |run2| - 1);
    SameLines(a, b, Range(NumServers(a)));
  }

  /* ---- the thresholds ------------------------------------------------------------------------ */

  lemma MismatchRange(cfg: Config, i: nat)
    ensures 0 <= Mismatches(cfg, i) <= NumChecks(cfg)
    ensures Mismatches(cfg, i) == 0 <==> forall c: nat :: c < NumChecks(cfg) ==> Final(cfg, i, c)
  {
    SumFull(NumChecks(cfg), MismatchBits(cfg, i));
    SumZero(NumChecks(cfg), MismatchBits(cfg, i));
    forall c: nat ensures MismatchBits(cfg, i)(c) == 0 <==> Final(cfg, i, c) {}
  }

  /** With a limit above the number of checks every server is valid. */
  lemma AllValid(cfg: Config)
    requires GoodConfig(cfg) && cfg.maxFailures > NumChecks(cfg)
    ensures forall i: nat :: Valid(cfg, i)
  {
    forall i: nat ensures Valid(cfg, i) {
      MismatchRange(cfg, i);
    }
  }

  lemma {:induction false} AllWritten(cfg: Config, p: seq<nat>)
    requires forall k :: 0 <= k < |p| ==> p[k] < NumServers(cfg)
    requires forall j: nat :: Valid(cfg, j)
    ensures |OutputOf(cfg, p)| == |p|
  {
    if |p| > 0 { AllWritten(cfg, p[..|p| - 1]); }
  }

  lemma ReportsInRange(cfg: Config, s: State)
    requires PoolOk(cfg, s) && ReportsOk(cfg, s)
    ensures forall k :: 0 <= k < |s.reported| ==> s.reported[k] < NumServers(cfg)
  {
    assert forall k :: 0 <= k < |s.reported| ==> s.reported[k] in s.reported;
  }

  lemma NobodyInvalid(cfg: Config, s: State)
    requires PoolOk(cfg, s) && ReportsOk(cfg, s) && forall i: nat :: Valid(cfg, i)
    ensures s.cancelled == {} && s.status.invalid == 0
  {
    ReportsInRange(cfg, s);
    AllWritten(cfg, s.reported);
    assert forall i: nat :: i !in s.cancelled;
  }

  /** Template validation passes len(template)+1, and then no server is ever disabled. */
  lemma NeverDropped(cfg: Config, run: seq<State>, k: nat)
    requires Behaviour(cfg, run) && k < |run| && cfg.maxFailures == NumChecks(cfg) + 1
    ensures run[k].cancelled == {} && run[k].status.invalid == 0
  {
    Always(cfg, run, k);
    AllValid(cfg);
    NobodyInvalid(cfg, run[k]);
  }

  /** The validation step accepts the template exactly when every trusted server finally
      passes every check. */
  lemma TemplateAccepted(cfg: Config, run: seq<State>, k: nat)
    requires Behaviour(cfg, run) && k < |run| && run[k].phase == Waiting
    ensures run[k].status.withFailures > 0 <==>
            exists i: nat, c: nat :: i < NumServers(cfg) && c < NumChecks(cfg) && !Final(cfg, i, c)
  {
    FinalFigures(cfg, run, k);
    SomeFailure(cfg, FailureBits(cfg));
  }

  lemma SomeFailure(cfg: Config, f: nat -> int)
    requires forall i: nat :: f(i) == Bit(exists c: nat :: c < NumChecks(cfg) && !Final(cfg, i, c))
    ensures WithMismatch(cfg, Range(NumServers(cfg))) > 0 <==>
            exists i: nat, c: nat :: i < NumServers(cfg) && c < NumChecks(cfg) && !Final(cfg, i, c)
  {
    forall i: nat ensures f(i) == Bit(Mismatches(cfg, i) > 0) {
      MismatchRange(cfg, i);
    }
    FailuresCounted(cfg, f, NumServers(cfg));
    SumZero(NumServers(cfg), f);
    if i: nat, c: nat :| i < NumServers(cfg) && c < NumChecks(cfg) && !Final(cfg, i, c) {
      assert f(i) == 1;
    }
  }

  /** What the documentation says: dropped once MORE THAN maxFailures checks fail. */
  ghost predicate DocumentedValid(cfg: Config, i: nat) {
    Mismatches(cfg, i) <= cfg.maxFailures
  }

  /** The same settings over another network. */
  function Over(cfg: Config, network: (nat, nat, nat) -> Reply): Config {
    cfg.(oracle := network)
  }

  function DomainOf(cfg: Config, c: nat): string {
    if c < NumChecks(cfg) then cfg.template[c].domain else ""
  }

  /** An IPv4 address in dotted form, as far as its alphabet goes. */
  predicate IsDotted(s: string) {
    forall k :: 0 <= k < |s| ==> s[k] == '.' || '0' <= s[k] <= '9'
  }

  /** What ResolveDNS can return for a domain: always an answer, for that domain, with
      records only on success, and addresses among the A records. */
  ghost predicate Resolved(domain: string, answer: Option<DNSAnswer>) {
    && answer.Some? && answer.value.domain == domain
    && (answer.value.data.status != "NOERROR" ==> answer.value.data.a == answer.value.data.cname == [])
    && forall k :: 0 <= k < |answer.value.data.a| ==> IsDotted(answer.value.data.a[k])
  }

  /** Every reply is one that the program can receive: its answer is resolved, and the
      rest is what the worker makes of it. */
  ghost predicate Received(cfg: Config) {
    && Faithful(cfg)
    && forall i: nat, c: nat, k: nat :: c < NumChecks(cfg) ==>
         Resolved(cfg.template[c].domain, cfg.oracle(i, c, k).answer)
  }

  /** The entries are what the parser returns. */
  ghost predicate ParsedTemplate(cfg: Config) {
    forall c: nat :: c < NumChecks(cfg) ==> GoodEntry(cfg.template[c])
  }

  /** From check m on, each template entry accepts this resolved answer, as template
      validation has seen of the trusted servers. */
  ghost predicate Accepts(cfg: Config, m: nat, accepted: nat -> DNSAnswer) {
    forall c: nat :: m <= c < NumChecks(cfg) ==>
      Resolved(cfg.template[c].domain, Some(accepted(c))) && EntryMatches(Some(cfg.template[c]), Some(accepted(c)))
  }

  function Refused(domain: string): DNSAnswer {
    DNSAnswer(domain, DNSAnswerData("REFUSED", [], []), false)
  }

  /** A network on which every server refuses the first m checks and gives the accepted
      answer to the others. */
  function RefusingFirst(cfg: Config, m: nat, accepted: nat -> DNSAnswer): (nat, nat, nat) -> Reply {
    (i: nat, c: nat, k: nat) =>
      if c < m then Reply(Some(Refused(DomainOf(cfg, c))), false, false)
      else Reply(Some(accepted(c)), true, IsWorthRetrying(Some(accepted(c))))
  }

  /** No parsed entry has the status REFUSED, and it is not worth a retry. */
  lemma RefusedNeverMatches(te: TemplateEntry, domain: string)
    requires GoodEntry(te)
    ensures !EntryMatches(Some(te), Some(Refused(domain))) && !IsWorthRetrying(Some(Refused(domain)))
  {
    forall k | 0 <= k < |te.validAnswers| ensures te.validAnswers[k].status != "REFUSED" {
      assert GoodAnswer(te.validAnswers[k]);
    }
  }

  lemma RefusingFirstIsReceived(cfg: Config, m: nat, accepted: nat -> DNSAnswer)
    requires ParsedTemplate(cfg) && Accepts(cfg, m, accepted)
    ensures Received(Over(cfg, RefusingFirst(cfg, m, accepted)))
  {
    var over := Over(cfg, RefusingFirst(cfg, m, accepted));
    forall i: nat, c: nat, k: nat | c < NumChecks(cfg)
      ensures var reply := over.oracle(i, c, k);
              && (reply.passed <==> EntryMatches(Some(cfg.template[c]), reply.answer))
              && (reply.retry <==> IsWorthRetrying(reply.answer))
              && Resolved(cfg.template[c].domain, reply.answer)
    {
      RefusedNeverMatches(cfg.template[c], DomainOf(cfg, c));
      if c < m {
        assert over.oracle(i, c, k).answer == Some(Refused(DomainOf(cfg, c)));
      } else {
        assert over.oracle(i, c, k).answer == Some(accepted(c));
      }
    }
  }

  lemma {:induction false} SumOfFirst(n: nat, m: nat, f: nat -> int)
    requires forall c: nat :: c < n ==> f(c) == Bit(c < m)
    ensures Sum(n, f) == if n <= m then n else m
  {
    if n > 0 { SumOfFirst(n - 1, m, f); }
  }

  lemma MismatchesOfRefusing(cfg: Config, m: nat, accepted: nat -> DNSAnswer, i: nat)
    requires GoodConfig(cfg) && m <= NumChecks(cfg)
    ensures Mismatches(Over(cfg, RefusingFirst(cfg, m, accepted)), i) == m
  {
    var over := Over(cfg, RefusingFirst(cfg, m, accepted));
    forall c: nat ensures MismatchBits(over, i)(c) == Bit(c < m) {
      assert Final(over, i, c) == (c >= m);
    }
    SumOfFirst(NumChecks(cfg), m, MismatchBits(over, i));
  }

  /** The drop rule of the code and the documented one give every listed server the same
      verdict over this network. */
  ghost predicate AgreeOver(cfg: Config, network: (nat, nat, nat) -> Reply) {
    forall i: nat :: i < NumServers(cfg) ==> Valid(Over(cfg, network), i) == DocumentedValid(Over(cfg, network), i)
  }

  /** The code keeps the documented rule exactly for the limit 0 and for limits above the
      number of checks (a negative limit is refused at start-up): over every network, and
      just as well over those whose replies the program can receive. For every other limit
      a network that refuses as many checks as the limit shows the difference; and wherever
      the two differ, a server has failed exactly as many checks as the limit. */
  lemma DocumentationGap(cfg: Config, accepted: nat -> DNSAnswer)
    requires GoodConfig(cfg) && ParsedTemplate(cfg) && cfg.maxFailures >= 0 && Accepts(cfg, cfg.maxFailures, accepted)
    ensures var kept := cfg.maxFailures == 0 || cfg.maxFailures > NumChecks(cfg);
            && ((forall network :: AgreeOver(cfg, network)) <==> kept)
            && ((forall network :: Received(Over(cfg, network)) ==> AgreeOver(cfg, network)) <==> kept)
    ensures 1 <= cfg.maxFailures <= NumChecks(cfg) ==>
              var network := RefusingFirst(cfg, cfg.maxFailures, accepted);
              Received(Over(cfg, network)) && !AgreeOver(cfg, network)
    ensures forall i: nat :: Valid(cfg, i) != DocumentedValid(cfg, i) <==>
                             cfg.maxFailures >= 1 && Mismatches(cfg, i) == cfg.maxFailures
  {
    if 1 <= cfg.maxFailures <= NumChecks(cfg) {
      LimitReached(cfg, accepted);
    } else {
      forall network ensures AgreeOver(cfg, network) {
        NeverAtLimit(cfg, network);
      }
    }
  }

  lemma LimitReached(cfg: Config, accepted: nat -> DNSAnswer)
    requires GoodConfig(cfg) && ParsedTemplate(cfg) && 1 <= cfg.maxFailures <= NumChecks(cfg)
    requires Accepts(cfg, cfg.maxFailures, accepted)
    ensures var network := RefusingFirst(cfg, cfg.maxFailures, accepted);
            && Received(Over(cfg, network)) && !AgreeOver(cfg, network)
            && forall i: nat :: Mismatches(Over(cfg, network), i) == cfg.maxFailures && !Valid(Over(cfg, network), i)
  {
    var over := Over(cfg, RefusingFirst(cfg, cfg.maxFailures, accepted));
    RefusingFirstIsReceived(cfg, cfg.maxFailures, accepted);
    forall i: nat ensures Mismatches(over, i) == cfg.maxFailures {
      MismatchesOfRefusing(cfg, cfg.maxFailures, accepted, i);
    }
    assert 0 < NumServers(cfg) && DocumentedValid(over, 0);
  }

  lemma NeverAtLimit(cfg: Config, network: (nat, nat, nat) -> Reply)
    requires cfg.maxFailures == 0 || cfg.maxFailures > NumChecks(cfg)
    ensures AgreeOver(cfg, network)
  {
    forall i: nat ensures Valid(Over(cfg, network), i) == DocumentedValid(Over(cfg, network), i) {
      MismatchRange(Over(cfg, network), i);
    }
  }

  ghost predicate NobodyDroppedOver(cfg: Config, network: (nat, nat, nat) -> Reply) {
    forall i: nat :: i < NumServers(cfg) ==> Valid(Over(cfg, network), i)
  }

  /** A network on which every server refuses every check. */
  function RefusingAll(cfg: Config): (nat, nat, nat) -> Reply {
    RefusingFirst(cfg, NumChecks(cfg), (c: nat) => Refused(""))
  }

  /** The progress bar announces "never dropped" for a limit of at least the number of
      checks. That is true exactly for a limit above it: over every network, and just as
      well over those whose replies the program can receive. At a limit of just that number
      every server that refuses all checks is dropped. */
  lemma NeverDroppedMessage(cfg: Config)
    requires GoodConfig(cfg) && ParsedTemplate(cfg) && cfg.maxFailures >= NumChecks(cfg)
    ensures var untouched := cfg.maxFailures > NumChecks(cfg);
            && ((forall network :: NobodyDroppedOver(cfg, network)) <==> untouched)
            && ((forall network :: Received(Over(cfg, network)) ==> NobodyDroppedOver(cfg, network)) <==> untouched)
    ensures cfg.maxFailures == NumChecks(cfg) ==>
              var over := Over(cfg, RefusingAll(cfg));
              Received(over) && forall i: nat :: Mismatches(over, i) == NumChecks(cfg) && !Valid(over, i)
    ensures forall i: nat :: Valid(cfg, i) <==>
                             !(cfg.maxFailures == NumChecks(cfg) && Mismatches(cfg, i) == NumChecks(cfg))
  {
    forall i: nat ensures 0 <= Mismatches(cfg, i) <= NumChecks(cfg) {
      MismatchRange(cfg, i);
    }
    if cfg.maxFailures == NumChecks(cfg) {
      LimitReached(cfg, (c: nat) => Refused(""));
      assert 0 < NumServers(cfg) && !NobodyDroppedOver(cfg, RefusingAll(cfg));
    } else {
      forall network ensures NobodyDroppedOver(cfg, network) {
        AllValid(Over(cfg, network));
      }
    }
  }

  /** The limits 0 and 1 behave alike. */
  lemma ZeroIsOne(cfg: Config, i: nat)
    requires cfg.maxFailures == 0
    ensures Valid(cfg, i) <==> Valid(cfg.(maxFailures := 1), i)
  {
    SameMismatches(cfg, cfg.(maxFailures := 1), i);
  }

  /** The number of mismatches depends on the network, the template and the attempts only. */
  lemma SameMismatches(a: Config, b: Config, i: nat)
    requires a.oracle == b.oracle && a.maxAttempts == b.maxAttempts && NumChecks(a) == NumChecks(b)
    ensures Mismatches(a, i) == Mismatches(b, i)
  {
    forall c: nat ensures Final(a, i, c) == Final(b, i, c) {
      SameAttempts(a, b, i, c, 0);
    }
    SumEqual(NumChecks(a), MismatchBits(a, i), MismatchBits(b, i));
  }

  lemma {:induction false} SameAttempts(a: Config, b: Config, i: nat, c: nat, k: nat)
    requires a.oracle == b.oracle && a.maxAttempts == b.maxAttempts
    ensures FinalFrom(a, i, c, k) == FinalFrom(b, i, c, k)
    decreases a.maxAttempts - k
  {
    if k + 1 < a.maxAttempts { SameAttempts(a, b, i, c, k + 1); }
  }
}
