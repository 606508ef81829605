/** The values behind the mutable records: one server's checks, and the counters. */
module ServerState {
  import opened Answers

  /** What a worker learns: the answer, whether it matches the template entry, and
      whether a mismatch deserves another attempt. */
  datatype Reply = Reply(answer: Option<DNSAnswer>, passed: bool, retry: bool)

  datatype Check = Check(answer: Option<DNSAnswer>, passed: bool, attemptsLeft: int, maxAttempts: int)

  datatype Server = Server(
    ip: string, disabled: bool, failed: int, completed: int, nextQueryAt: int,
    pending: seq<nat>, checks: seq<Check>)

  function Skipped(domain: string): Option<DNSAnswer> {
    Some(DNSAnswer(domain, DNSAnswerData("SKIPPED", [], []), false))
  }

  function FirstCheck(entry: TemplateEntry, maxAttempts: int): Check {
    Check(Skipped(entry.domain), false, maxAttempts, maxAttempts)
  }

  /** NewServerContext: every check pending, in template order. */
  function NewServer(ip: string, template: seq<TemplateEntry>, maxAttempts: int): (srv: Server)
    ensures |srv.pending| == |srv.checks| == |template|
    ensures forall i :: 0 <= i < |template| ==>
              srv.pending[i] == i && srv.checks[i] == FirstCheck(template[i], maxAttempts)
  {
    Server(ip, false, 0, 0, 0,
           seq(|template|, i requires 0 <= i < |template| => i),
           seq(|template|, i requires 0 <= i < |template| => FirstCheck(template[i], maxAttempts)))
  }

  predicate Finished(srv: Server) {
    srv.disabled || srv.completed == |srv.checks|
  }

  /** The three ways applyResults can go. */
  datatype Outcome = Passes | Retries | Fails

  function OutcomeOf(srv: Server, c: nat, reply: Reply): Outcome
    requires c < |srv.checks|
  {
    if reply.passed then Passes
    else if srv.checks[c].attemptsLeft - 1 > 0 && reply.retry then Retries
    else Fails
  }

  /** The server after applyResults. */
  function Applied(srv: Server, c: nat, reply: Reply, maxFailures: int): (after: Server)
    requires c < |srv.checks|
    ensures |after.checks| == |srv.checks|
  {
    var chk := srv.checks[c].(attemptsLeft := srv.checks[c].attemptsLeft - 1, answer := reply.answer);
    match OutcomeOf(srv, c, reply)
    case Passes => srv.(checks := srv.checks[c := chk.(passed := true)], completed := srv.completed + 1)
    case Retries => srv.(checks := srv.checks[c := chk], pending := [c] + srv.pending)
    case Fails =>
      srv.(checks := srv.checks[c := chk], completed := srv.completed + 1, failed := srv.failed + 1,
           disabled := srv.disabled || srv.failed + 1 >= maxFailures)
  }

  /** What applyResults adds to TotalChecks, while it adds one to DoneChecks. */
  function TotalDelta(srv: Server, c: nat, reply: Reply, maxFailures: int): int
    requires c < |srv.checks|
  {
    match OutcomeOf(srv, c, reply)
    case Passes => 0
    case Retries => 1
    case Fails => if srv.failed + 1 >= maxFailures then -(|srv.checks| - (srv.completed + 1)) else 0
  }

  /** The StatusReporter's counters and the lines written to the output file. */
  datatype Status = Status(valid: int, invalid: int, withFailures: int, total: int, done: int, output: seq<string>)

  function Counted(st: Status, totalDelta: int): Status {
    st.(done := st.done + 1, total := st.total + totalDelta)
  }

  /** ReportFinishedServer. */
  function Reported(st: Status, srv: Server): Status {
    var st1 := if srv.failed > 0 then st.(withFailures := st.withFailures + 1) else st;
    if srv.disabled then st1.(invalid := st1.invalid + 1)
    else st1.(valid := st1.valid + 1, output := st1.output + [srv.ip])
  }

  /* ---- what these functions mean, field by field -------------------------------------- */

  /** A new server has nothing done, is due at once, and has every check pending in
      template order, unanswered, with all its attempts. */
  lemma NewServerMeans(ip: string, template: seq<TemplateEntry>, maxAttempts: int, c: nat)
    requires c < |template|
    ensures var srv := NewServer(ip, template, maxAttempts);
            && srv.ip == ip && !srv.disabled && srv.failed == srv.completed == srv.nextQueryAt == 0
            && srv.pending[c] == c
            && srv.checks[c].attemptsLeft == srv.checks[c].maxAttempts == maxAttempts && !srv.checks[c].passed
            && srv.checks[c].answer == Some(DNSAnswer(template[c].domain, DNSAnswerData("SKIPPED", [], []), false))
  {
  }

  /** One result: what it does to its check and to no other, and to the due time. */
  ghost predicate CheckUpdated(before: Server, after: Server, c: nat, reply: Reply) {
    && |after.checks| == |before.checks| > c
    && after.ip == before.ip && after.nextQueryAt == before.nextQueryAt
    && (forall e :: 0 <= e < |before.checks| && e != c ==> after.checks[e] == before.checks[e])
    && after.checks[c].answer == reply.answer
    && after.checks[c].attemptsLeft == before.checks[c].attemptsLeft - 1
    && after.checks[c].maxAttempts == before.checks[c].maxAttempts
    && after.checks[c].passed == (before.checks[c].passed || reply.passed)
  }

  /** A retry comes only after a mismatch worth it with attempts left; it goes to the front
      of the queue and counts as one more planned check. */
  ghost predicate Retried(before: Server, after: Server, c: nat, totalDelta: int) {
    && after.pending == [c] + before.pending && totalDelta == 1
    && after.completed == before.completed && after.failed == before.failed && after.disabled == before.disabled
  }

  /** A failure completes the check, and disables the server when the limit is reached;
      the checks that are cancelled by that are no longer planned. */
  ghost predicate FailedFor(before: Server, after: Server, maxFailures: int, totalDelta: int) {
    && after.pending == before.pending && after.completed == before.completed + 1 && after.failed == before.failed + 1
    && if after.failed >= maxFailures then after.disabled && totalDelta == after.completed - |after.checks|
       else after.disabled == before.disabled && totalDelta == 0
  }

  ghost predicate PassedFor(before: Server, after: Server, totalDelta: int) {
    && after.pending == before.pending && after.completed == before.completed + 1 && totalDelta == 0
    && after.failed == before.failed && after.disabled == before.disabled
  }

  ghost predicate ResultApplied(before: Server, after: Server, c: nat, reply: Reply, maxFailures: int,
      totalDelta: int) {
    && CheckUpdated(before, after, c, reply)
    && if reply.passed then PassedFor(before, after, totalDelta)
       else if reply.retry && before.checks[c].attemptsLeft >= 2 then Retried(before, after, c, totalDelta)
       else FailedFor(before, after, maxFailures, totalDelta)
  }

  lemma AppliedMeans(srv: Server, c: nat, reply: Reply, maxFailures: int)
    requires c < |srv.checks|
    ensures ResultApplied(srv, Applied(srv, c, reply, maxFailures), c, reply, maxFailures,
                TotalDelta(srv, c, reply, maxFailures))
  {
  }
}
