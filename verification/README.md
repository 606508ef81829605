# DNSanity, verified

DNSanity checks lists of DNS servers. Every server is asked every question of a template,
by many concurrent workers, under a global and a per-server request rate; mismatches are
retried or held against the server, and the servers that pass are written out. This
project models the parts of the program in which that can go wrong and proves that it
does not:

* **The scheduler** (`Protocol`, `Invariant`, `Safety`, `Verdicts`, `Budgets`,
  `Liveness`, `TurnRules`, `Ending`, `Grain`, `Servers`, `Scheduler`). `Protocol` is a
  labelled transition system. One step is one indivisible action of one goroutine: the
  scheduling loop, a worker that sends or releases its slot, the token refiller, the
  clock. Interleaving, map iteration order and token availability are left open, and the
  network is an arbitrary oracle that gives a reply for a server, a check and an attempt
  number. The theorems hold in every state of every run: the partition of the checks,
  the books of the progress counters, the query and rate budgets, that the final figures
  are those of a plain sequential loop whatever the schedule, and that every run can be
  brought to its end. `TurnRules` says what a turn of the loop does to slots, servers
  and pool in terms of the settings and the records alone: the thread limit, idle
  servers first, retries first, nobody passed over. `Grain` takes the longer actions
  apart into loads, swaps and reads and shows that nothing changes. `Servers` and
  `Scheduler` write the loop out as classes and methods over mutable records, channels
  and maps. A ghost field records the protocol states passed through, every method
  proves that the record stays a behaviour of the protocol, and so the imperative
  `DNSanitize` inherits the theorems.
* **The record matcher** (`Glob`, `Augment`, `Matching`). Glob matching against the
  character-by-character meaning of `*`; augmenting paths against the existence of a
  perfect assignment, with Hall's obstruction read off the visited array; and
  `matchRecords` against the existence of a bijection.
* **The template text form** (`Text`, `Answers`, `RoundTrip`, `Templates`). Parser and
  printer of entries, their round trip, and the loading of whole templates.
* **The token bucket** (`RateLimiter.dfy`: `Bucket`, `Linearizability`). The
  compare-and-swap loops, alone among arbitrary other operations and as micro-steps of any
  number of threads.
* **Progress figures** (`Requests`, `Bar`). The sliding one-second window, compacted in
  place, against the full history of calls; and the 60-rune progress bar.

`Sets`, `Sums`, `ServerState` and `Checks` hold what these share: finite sets and sums, the
values behind the mutable records, and the life of one server's checks.

What the program's option checks and parsers establish is a precondition, named
`GoodConfig`: at least one server and one template entry, at least one attempt, thread and
pool place, and a bucket that a refill fills. `Requests` and `Bar` stand alone; `BarFits`
shows that the scheduler always meets the bar's precondition.

Where the documentation and the code disagree the model follows the code. The drop test
is `FailedCount >= srvMaxFailures`, while the documentation and the progress text speak
of "more than" the limit: `DocumentationGap`, `NeverDroppedMessage` and `ZeroIsOne` say
for exactly which settings the two differ, with a network of refused queries on which
they do. `LastSecCount`
is documented as the number of requests in the last second. It reads the clock itself, and
only a `Log` whose time is ahead of the clock can make it lose batches: `CountInTime`
shows it exact without one, which is how the scheduler calls `Log`, `CountExact` says
exactly when it is, and `FutureLogLoses` gives an input on which it is not.

## Model

| member | source | states |
|---|---|---|
| Glob.GlobMatch | internal/dns/template.go:166-201 | answers whether the string is one the pattern means, `*` standing for any string and every other character for itself in either letter case, for every pattern and string |
| Glob.AnyCase | internal/dns/template.go:167-168 | lowering pattern and string ignores letter case and nothing else: the lowered pattern means the lowered string exactly when the pattern means the string with letters taken in either case |
| Text.LoweredAlike | internal/dns/template.go:167-168 | two texts are the same once lowered exactly when they are as long and have, place by place, the same character or the same letter of the two alphabets |
| Text.LowerCharMeans | internal/dns/template.go:167-168 | the i-th capital becomes the i-th small letter, and a character that is no capital stays |
| Glob.MatchSegments | internal/dns/template.go:173-200 | prefix, leftmost middle segments and suffix together decide the pattern's meaning |
| Glob.LeftmostIsBest | internal/dns/template.go:182-194 | taking the leftmost occurrence of a middle segment never loses a match |
| Glob.ExactMeans | internal/dns/template.go:169-171 | a pattern without `*` means its own text and nothing else |
| Augment.TryAugment | internal/dns/template.go:143-155 | failure leaves the assignment unchanged and a closed, fully owned set of visited values that holds all neighbours of the root; success keeps a matching on what was unvisited, keeps every owner and gains exactly the new pattern; terminates |
| Augment.Reroute | internal/dns/template.go:149-151 | while an owner is being rerouted and owns two values, the assignment on the unvisited ones is still a matching |
| Augment.FailureRefutesAll | internal/dns/template.go:132-137 | a failed search refutes every perfect assignment: the owners of the visited values and the root are one more than the values they may take |
| Augment.OwnersGivePerfect | internal/dns/template.go:127-138 | when every pattern owns a value, the owners array read backwards is a perfect assignment |
| Augment.AssignAll | internal/dns/template.go:127-138 | the assignment loop succeeds exactly when a perfect assignment exists |
| Matching.MatchRecords | internal/dns/template.go:69-139 | true exactly when a bijection pairs each pattern with a value that it means, letters taken in either case |
| Matching.ConsumeExact | internal/dns/template.go:84-95 | taking exact patterns out of the value multiset neither loses nor invents a matching, and fails only when there is none |
| Matching.Phase1Ends | internal/dns/template.go:97-111 | after phase 1 as many values are left as globs, so the size guard never decides anything |
| Matching.TakeExact | internal/dns/template.go:87-92 | an exact pattern can always be given any one copy of its own text |
| Matching.RemainingValues | internal/dns/template.go:103-108 | phase 2 lists the values left, whatever order the map yields its keys in |
| Matching.MatchGlobs | internal/dns/template.go:109-138 | phase 3 decides whether the globs can be arranged over the values left |
| Matching.MatchIsArrangement | internal/dns/template.go:66-68 | a bijection exists exactly when some rearrangement of the values matches the patterns place by place |
| Matching.OrderIrrelevant | internal/dns/template.go:66-68 | permuting the patterns or the values changes nothing |
| Answers.Matches | internal/dns/template.go:53-64 | true exactly for an answer of the entry's domain that some alternative matches in status and, one to one, in both record lists; a nil entry or answer never matches |
| Answers.NewDNSAnswerData | internal/dns/dnsanswer.go:33-72 | a lone status word is that status; otherwise, if every field is a record, the A records are the tails of the `A=` fields in order and the CNAMEs the lowered tails of the `CNAME=` fields in order, under NOERROR; otherwise the error names the first field that is no record; no field is an error too |
| Answers.TokensRead | internal/dns/dnsanswer.go:38-71 | the field-by-field fold comes to that meaning, however A and CNAME fields are mixed |
| Text.WhiteSpace | internal/dns/dnsanswer.go:34 | which characters part the fields |
| Answers.AnswerToString | internal/dns/dnsanswer.go:18-31 | the printing loops compute the text that RoundTrip proves to parse back |
| Answers.AnswerText | internal/dns/dnsanswer.go:18-31 | the printed answer is its status, or `A=` and `CNAME=` texts of its records in order, one space apart |
| Answers.WorthRetrying | internal/dns/dnsanswer.go:93-110 | retried are TIMEOUT, SERVFAIL and truncated NOERROR, and nothing else |
| Answers.NewTemplateEntry | internal/dns/template.go:21-42 | computes the entry that the line means, or the first error of its alternatives; the slice behind the domain is in range for a trimmed line |
| Answers.EntryReads | internal/dns/template.go:21-42 | an entry is its first field and the readings of the trimmed alternatives behind it, or the error of the first bad one; fewer than two fields are an error |
| Answers.EntryText | internal/dns/template.go:44-50 | the printed entry is the domain and the printed alternatives, in order |
| Answers.EntryToString | internal/dns/template.go:44-50 | computes the text that RoundTrip proves to parse back |
| RoundTrip.PrintThenParse | internal/dns/template.go:21-50 | printing a good entry and parsing the text gives that entry back |
| RoundTrip.ParsePrintParse | internal/dns/template.go:21-50 | any line that parses gives, printed and parsed again, the same entry; printing is a normal form |
| RoundTrip.ParsedIsGood | internal/dns/dnsanswer.go:33-72 | whatever parses is good: a domain that is one field, each answer a lone status word or NOERROR with records, CNAMEs in lower case |
| RoundTrip.GoodIsParsed | internal/dns/template.go:21-42 | the good entries are exactly those the parser can return |
| RoundTrip.PrintIsInjective | internal/dns/template.go:44-50 | different good entries print differently |
| RoundTrip.AnswerRoundTrip | internal/dns/dnsanswer.go:18-72 | a printed answer, with any white space around it, parses back |
| Templates.LoadTemplate | internal/dns/template.go:260-289 | the loop computes the template, or the first error with its line number, that LoadedInOrder and BadLineIsFirst describe, each line cut and trimmed as CommentCut says |
| Templates.CommentCut | internal/dns/template.go:271-272 | what is read of a line is the text before its first '#', trimmed |
| Templates.CommentsChangeNothing | internal/dns/template.go:267-282 | whatever stands behind a '#' changes nothing in what is loaded, errors and line numbers included |
| Templates.LoadedInOrder | internal/dns/template.go:264-288 | without a bad line the result is the entries of the lines, all of them in order, or the no-entries error if there are none |
| Templates.Reload | internal/dns/template.go:260-289 | a loaded template is not empty and, written out one printed entry a line, loads again as itself |
| Templates.BadLineIsFirst | internal/dns/template.go:267-282 | a line is reported exactly when it is the first that is neither blank nor parseable once its comment is cut off, counted from 1 |
| Templates.DomainLeadsLine | internal/dns/template.go:23-28 | on a stripped line the remainder starts right behind the domain, at white space |
| Bucket.Meanings | internal/dnsanitize/ratelimiter.go:93-150 | the atomic operations: a token is taken if there is one, one is given back or the refill amount added up to the maximum; a token given back at once leaves the bucket as it was |
| Bucket.RateLimiter.ConsumeOne | internal/dnsanitize/ratelimiter.go:115-130 | whatever runs meanwhile, one atomic consume at some moment of the call, with that operation's result; terminates |
| Bucket.RateLimiter.GiveBackOne | internal/dnsanitize/ratelimiter.go:134-150 | one atomic give-back at some moment of the call |
| Bucket.RateLimiter.RefillOnce | internal/dnsanitize/ratelimiter.go:94-111 | one atomic refill at some moment of the call |
| Linearizability.Linearizable | internal/dnsanitize/ratelimiter.go:94-150 | in every interleaving of loads and swaps the effects in order are a legal run of the atomic bucket, every finished call is one of them inside its own interval with the result it returned, no two calls share one, and the bucket never overflows |
| Linearizability.RealTimeOrder | internal/dnsanitize/ratelimiter.go:94-150 | a call that returned before another began takes effect before it |
| Linearizability.FailedSwapMeansProgress | internal/dnsanitize/ratelimiter.go:103-109 | a failed swap means that another thread's operation took effect since the load |
| Linearizability.SwapIsAtomic | internal/dnsanitize/ratelimiter.go:97-105 | a successful swap does what the atomic operation does even if the counter changed and came back |
| Servers.ServerContext.constructor | internal/dns/servercontext.go:29-52 | every check pending once, in template order, with all its attempts |
| Servers.ApplyResults | internal/dnsanitize/dnsanitize.go:205-241 | moves the server's record and the counters by one reply: pass; retry at the front of the queue, if the mismatch is worth it and an attempt is left; or fail, with the drop at the threshold and the cancelled checks taken off the total |
| ServerState.AppliedMeans | internal/dnsanitize/dnsanitize.go:211-240 | field by field, what one reply does to its check, to the queue, to the counters and to no other check |
| ServerState.NewServerMeans | internal/dns/servercontext.go:29-52 | a new server has every check pending in template order, unanswered, with all its attempts, and is due at once |
| Servers.StatusReporter.AddDoneChecks | internal/report/status.go:152-160 | adds to the two counters and to nothing else |
| Servers.StatusReporter.ReportFinishedServer | internal/report/status.go:170-182 | counts the server valid or invalid, counts it failing if it failed a check, and writes the line of a valid one |
| Servers.ServerPool.LoadN | internal/dnsanitize/serverpool.go:45-57 | loads the next servers of the queue under fresh slot ids until n, the pool bound or the queue's end; keeps the records already there and returns how many it loaded |
| Servers.ServerPool.Unload | internal/dnsanitize/serverpool.go:66-68 | takes out that one record and leaves the others |
| Servers.ServerPool.Questions | internal/dnsanitize/serverpool.go:70-96 | the pool's predicates answer what the protocol asks |
| Checks.AppliedServer | internal/dnsanitize/dnsanitize.go:205-241 | a reply keeps an unfinished server in order, and a server it finishes is disabled exactly when the sequential verdict is invalid |
| Checks.CountsAddUp | internal/dns/servercontext.go:20-26 | CompletedCount + pending + outstanding is the number of checks |
| Checks.FailedPlusPassed | internal/dns/servercontext.go:20-26 | FailedCount + checks passed is CompletedCount |
| Checks.DispatchKeepsChecks | internal/dnsanitize/dnsanitize.go:150-157 | moving the front check from the queue to a worker keeps the partition |
| CollectSteps.CollectedReply | internal/dnsanitize/dnsanitize.go:102-117 | a collected result is the oracle's reply to the one outstanding query for its check, or belongs to a cancelled server |
| CollectSteps.CollectCore | internal/dnsanitize/dnsanitize.go:102-117 | collection keeps the records' invariant, for late results, retries, completions and drops |
| WorkerSteps.DispatchCore | internal/dnsanitize/dnsanitize.go:145-158 | dispatch keeps the records' invariant |
| Safety.StepKeepsInv | internal/dnsanitize/dnsanitize.go:97-199 | every step of every goroutine keeps the invariant |
| Safety.Always | internal/dnsanitize/dnsanitize.go:87-200 | the invariant holds in every state of every run |
| Budgets.Partition | internal/dnsanitize/dnsanitize.go:135-169 | each check of a loaded server is pending once, out once or done; the counters agree; what is pending or out has an attempt left; a loaded server is not finished |
| Budgets.Conservation | internal/report/status.go:117-118 | TotalChecks - DoneChecks is the work left in the pool plus the queue's, and every server is reported, loaded or queued |
| Budgets.SlotsNotReused | internal/dnsanitize/serverpool.go:45-68 | a slot id whose server has left the pool is in no later pool of the run |
| TurnRules.JobLimit | internal/dnsanitize/dnsanitize.go:70-75 | in every state of every run the running workers and unreleased slots are at most maxThreads and at most servers * checks |
| TurnRules.RefusedWhenFull | internal/dnsanitize/dnsanitize.go:145-168 | with a token in hand a query is given up exactly when one of those two limits is reached, and then pool and workers stay |
| TurnRules.EveryDispatch | internal/dnsanitize/dnsanitize.go:123-158 | every dispatch of every run: the front check of a server that is due goes out as its next attempt, the server is due again an interval after the clock reading of the turn, and no other server changes |
| TurnRules.RetryGoesFirst | internal/dnsanitize/dnsanitize.go:221-227 | once a check has to be tried again the next query to its server is the next attempt at it, unless another result of that server is taken in first |
| TurnRules.BusyOnlyWhenFull | internal/dnsanitize/dnsanitize.go:127-144 | a server with an outstanding query gets another one only in a turn at whose opening the pool was full or the queue empty |
| TurnRules.EveryoneServed | internal/dnsanitize/dnsanitize.go:127-170 | while tokens and slots last, every idle server that is due gets a query in the turn, and every busy one if the pool could not grow and slots are left over |
| TurnRules.LoadsExactly | internal/dnsanitize/dnsanitize.go:180-192 | a turn loads none if the pool could not grow at its opening, else as many as tokens, unused slots, places and queue allow; always the next of the list, with all their checks to do |
| Budgets.FinishedWhenDrained | internal/report/status.go:250-257 | the servers counted done are all of them exactly when pool and queue are empty |
| Budgets.PoolSafety | internal/dnsanitize/serverpool.go:45-68 | slot ids follow the queue, the pool is bounded, inFlight counts the outstanding queries with a key only while positive, and a result without a pool entry belongs to a disabled server |
| Budgets.QueryBound | internal/dnsanitize/dnsanitize.go:211-227 | no check is queried more than maxAttempts times, and no run makes more than servers * checks * maxAttempts queries |
| Budgets.GlobalBudget | internal/dnsanitize/dnsanitize.go:142-168 | after r refills at most maxTokens + r * refillAmount queries were dispatched, given-back tokens and all |
| Budgets.ServerRate | internal/dnsanitize/dnsanitize.go:60-63 | dispatches to one server are at least the interval apart, so a window of length T holds at most 1 + floor(T / interval) of them |
| Budgets.BarFits | internal/report/status.go:336-345 | the valid and invalid servers shown never exceed the total |
| Verdicts.FinalFigures | internal/report/status.go:170-191 | once the loop is left every server was reported exactly once, the output and the counters are those of a sequential run, and DoneChecks equals TotalChecks |
| Verdicts.ScheduleIndependence | internal/dnsanitize/dnsanitize.go:87-241 | any two finished runs over the same network write the same lines and end with the same counts, also under different pool, thread and rate limits |
| Verdicts.FinalMeans | internal/dnsanitize/dnsanitize.go:214-227 | a check is finally passed exactly when one of the allowed attempts matches its template entry and every earlier answer was a mismatch worth retrying |
| Verdicts.Judge | internal/dnsanitize/dnsanitize.go:31-48 | a worker reports a pass exactly when the template entry matches, and a retry exactly for TIMEOUT, SERVFAIL or a truncated NOERROR |
| Verdicts.FinalByStatus | internal/dnsanitize/dnsanitize.go:214-227 | a check is finally passed exactly when one of the allowed attempts matches and every earlier answer was a mismatching TIMEOUT, SERVFAIL or truncated NOERROR |
| Verdicts.GivenUp | internal/dnsanitize/dnsanitize.go:228-230 | one mismatch of any other status, or on the last allowed attempt, fails the check if no match came before |
| Verdicts.SequentialMeans | internal/report/status.go:170-191 | what the sequential figures count: each listed server without failed checks or with fewer than the limit is written as often as it is listed; those with a failed check are counted |
| Verdicts.NeverDropped | main.go:26-32 | with the limit len(template) + 1 of template validation no server is ever disabled |
| Verdicts.TemplateAccepted | main.go:45-65 | ServersWithFailures is positive exactly when some trusted server finally fails some check |
| Verdicts.DocumentationGap | README.md:121-123 | code and documentation agree exactly for the limit 0 and limits above the number of checks, over all networks as over those whose replies can be received; for each other limit servers that refuse that many checks show the difference; where they differ a server has as many mismatches as the limit |
| Verdicts.NeverDroppedMessage | internal/report/status.go:79-86 | among the limits for which it is shown, the "never dropped" text is true exactly for those above the number of checks, over all networks as over those whose replies can be received; at that number every server that refuses all checks is dropped |
| Verdicts.RefusingFirstIsReceived | internal/dns/resolver.go:26-58 | the replies of that network are ones that ResolveDNS can give and a worker report: an answer for the domain asked, records only on success, addresses for A |
| Verdicts.ZeroIsOne | internal/dnsanitize/dnsanitize.go:232 | the limits 0 and 1 give the same verdicts |
| Liveness.WaitNeverBlocks | internal/dnsanitize/dnsanitize.go:41-47 | at the final Wait every worker can send although nobody receives, and every slot can be released |
| Liveness.WaitCountsDown | internal/dnsanitize/dnsanitize.go:198-199 | after the loop each worker move brings the Wait one step nearer, no other move delays it, and it returns at zero |
| Liveness.WaitReturns | internal/dnsanitize/dnsanitize.go:198-199 | the Wait has returned exactly when the workers have made the moves that were owed when the loop was left |
| Liveness.SchedulerNeverBlocks | internal/dnsanitize/dnsanitize.go:97-197 | until it leaves the loop the scheduler always has a next step of its own |
| Liveness.WorkIsFinite | internal/dnsanitize/dnsanitize.go:97-197 | at most 4 * servers * checks * maxAttempts + servers steps of a run dispatch, send, release, collect or load |
| Ending.CanEnd | internal/dnsanitize/dnsanitize.go:97-199 | every run of the program has a continuation that leaves the loop and returns from the Wait, with the sequential figures |
| Ending.ReadyTurnsBounded | internal/dnsanitize/dnsanitize.go:97-197 | at most servers * checks * maxAttempts + servers turns of a run are ever ready: undrained, nothing outstanding, a token, every due time past |
| Liveness.Progress | internal/dnsanitize/dnsanitize.go:123-197 | an undrained round with nothing outstanding, a token and every due time past dispatches or loads before it ends |
| Grain.Atomicity | internal/dnsanitize/ratelimiter.go:94-155 | runs in which the bucket's loads and swaps, the reads of clock and job slots and the read of the token count before LoadN are separate steps are matched, state by state, by runs of the protocol |
| Grain.FineFigures | internal/dnsanitize/dnsanitize.go:123-197 | in that grain too the bucket never overflows, the request budget is kept and the final figures are the sequential ones |
| Grain.RefillAfterGiveBack | internal/dnsanitize/ratelimiter.go:94-150 | a refill between the decision to give a token back and the swap that does it comes to the same |
| Scheduler.QueryScheduler.constructor | internal/dnsanitize/dnsanitize.go:65-75 | sets up the initial state; both channels have the capacity maxThreads or servers * checks, whichever is less |
| Scheduler.QueryScheduler.WithinThreadLimit | internal/dnsanitize/dnsanitize.go:70-75 | at every moment running workers and unreleased slots are within the thread limit |
| Scheduler.QueryScheduler.WorkerSends | internal/dnsanitize/dnsanitize.go:39-46 | a worker's send is a step of the protocol |
| Scheduler.QueryScheduler.Receive | internal/dnsanitize/dnsanitize.go:102-117 | taking a result from the channel into the records is the protocol's collection step |
| Scheduler.QueryScheduler.CollectResults | internal/dnsanitize/dnsanitize.go:98-121 | the collection loop ends, with the channel seen empty, whatever the workers send meanwhile |
| Scheduler.QueryScheduler.VisitServer | internal/dnsanitize/dnsanitize.go:136-144 | a server of the map range is skipped, refused or given a token as the protocol says |
| Scheduler.QueryScheduler.StartWorker | internal/dnsanitize/dnsanitize.go:146-158 | the dispatch of the front check is the protocol's dispatch step |
| Scheduler.QueryScheduler.ReturnToken | internal/dnsanitize/dnsanitize.go:165-168 | with no free slot the token goes back and nothing else changes |
| Scheduler.QueryScheduler.Pass | internal/dnsanitize/dnsanitize.go:135-169 | a pass, in any map order and with any interleaving, is a run of the protocol |
| Scheduler.QueryScheduler.Passes | internal/dnsanitize/dnsanitize.go:123-170 | idle pass, then busy pass only if slots are left and the pool cannot grow |
| Scheduler.QueryScheduler.LoadMore | internal/dnsanitize/dnsanitize.go:180-192 | loads as many servers as there are both tokens and free slots, if the pool could grow |
| Scheduler.QueryScheduler.Round | internal/dnsanitize/dnsanitize.go:97-197 | one turn of the loop is a run of the protocol: it leaves the loop exactly when drained and else completes the turn |
| Scheduler.QueryScheduler.Wait | internal/dnsanitize/dnsanitize.go:198-199 | the final Wait returns, whichever worker moves when |
| Scheduler.ScheduleChecks | internal/dnsanitize/dnsanitize.go:87-200 | the loop and the Wait, given up after a number of turns, are a run of the protocol: ended, or come round that often |
| Scheduler.DNSanitize | internal/dnsanitize/dnsanitize.go:55-83 | when it ends, the output and the counters are those of a plain sequential run and every worker has ended; never were more than maxThreads slots taken; when it is given up, the loop has come round as often as allowed, the run can still be brought to that end, and only a bounded number of its turns were ready |
| Requests.RequestsLogger.Log | internal/report/logging.go:76-97 | adds the batch and keeps, in place and in order, exactly those newer than a second |
| Requests.RequestsLogger.LastSecCount | internal/report/logging.go:108-126 | never counts too many, and counts the last second exactly unless one of its batches was pruned by a call with a later time; the peak is updated |
| Requests.RequestsLogger.Prune | internal/report/logging.go:113-121 | the in-place compaction keeps exactly the newer batches, in order, and sums them |
| Requests.LastSecondMeans | internal/report/logging.go:88-92 | a batch is in the last second as long as less than a thousand million nanoseconds have passed |
| Requests.WindowIsHistory | internal/report/logging.go:86-97 | the window holds what the full history holds, in order, for every cutoff not before an earlier one |
| Requests.CountIsTrue | internal/report/logging.go:104-126 | a query not before any earlier call counts the last second exactly |
| Requests.CountExact | internal/report/logging.go:104-126 | the count is exact if and only if no batch of the last second was pruned earlier |
| Requests.CountInTime | internal/report/logging.go:108-126 | with the clock never going back, every query is exact as long as no Log is given a time ahead of it |
| Requests.OnlyFutureLogsLose | internal/report/logging.go:86-97 | a query that is not exact was preceded by a Log with a time ahead of the clock |
| Requests.FutureLogLoses | internal/report/logging.go:86-97 | a Log with a time ahead of the clock can make the next query count too little |
| Requests.PeakIsLargest | internal/report/logging.go:122-124 | no returned count exceeds the peak |
| Requests.PeakIsReached | internal/report/logging.go:122-124 | a positive peak is one of the returned counts |
| Bar.RenderBrailleBar | internal/report/status.go:336-401 | exactly 60 runes with no negative padding; a side with points never vanishes; no blank once all servers are done; both runs are shown whole if they fit, else the one with the smaller partial block lacks it, but never a side of a single rune; so at most half a block is lost unless one side is a single rune |
| Bar.PointsExact | internal/report/status.go:342-345 | in whole numbers: 480 n / total, rounded half up |
| Bar.LeftCodePoints | internal/report/status.go:348-356 | the very characters of the left run |
| Bar.RightCodePoints | internal/report/status.go:359-364 | the very characters of the right run |
| Bar.Trim | internal/report/status.go:375-389 | the innermost rune of one side is taken off, never the only one of a side, else that of the side with the smaller partial block |
| Bar.BuildLeft | internal/report/status.go:348-358 | the left run is full blocks and then its partial one, with exactly as many dots as points |
| Bar.BuildRight | internal/report/status.go:359-369 | the right run is its partial block and then full ones, with exactly as many dots as points |
| Bar.OneTooManyAtMost | internal/report/status.go:376 | both runs together are at most one rune too wide |
| Bar.OverflowIsPartial | internal/report/status.go:375-389 | while servers remain an overflow comes from two partial blocks with eight dots together at most |
| Bar.PointsTogether | internal/report/status.go:341-345 | rounding both sides gives at most one point too many, and none too few once all servers are done |
| Bar.SideVisible | internal/report/status.go:279-284 | a side has a point exactly from a 960th of the servers on |
| Bar.ExtrasCount | internal/report/status.go:355-363 | each partial block shows its points as dots, and one point more keeps the dots there are |

## Left out

- Network: `ResolveDNS` and `mapResolveError` are replaced by the oracle. A reply is a function of server, check and attempt number; a cancelled query may return anything.
- Time and tickers: only a clock that never goes back and refill ticks; no timeouts, no sleeping, no spin counters or yielding in the compare-and-swap loops.
- Fairness: that workers answer and ticks arrive is not assumed, and without it a run need not end. `CanEnd`, `ReadyTurnsBounded`, `Progress`, `WorkIsFinite`, `SchedulerNeverBlocks` and `Wait` say what the program itself contributes.
- Scheduler.DNSanitize: the loop is given up after a freely chosen number of turns, because a worker that never answers, or time that never passes, keeps the program's loop going for ever.
- Scheduler.QueryScheduler.Passes: in the class the clock, the pool and the number of busy jobs are read in one step, and each bucket call is one step; `Grain.Atomicity` splits them.
- Scheduler.QueryScheduler.LoadMore: in the class the token count is read and the servers are loaded in one step; `Grain.Atomicity` splits them.
- Scheduler.QueryScheduler.constructor: threads and contexts are not objects; a worker is its job, and a cancelled context is an entry in a set.
- Verdicts.FinalMeans: assumes that the replies are what `Judge` makes of the answers.
- Request and gauge logging calls inside the scheduling loop; `MetricGauge`, the average rate, elapsed and remaining time.
- `NewRateLimiter`: floating point; the bucket size is given and refills fill it. Counters are unbounded integers.
- Bar.RenderBrailleBar: scaling is in exact rationals, not floating point; colour escapes are not part of the result.
- Text: case folding and white space are ASCII; the line scanner and its length limit are not part of this model.
- Config, flags, server-list parsing, file handling, terminal output, the verbose dump and `main`: they carry no state worth proving, and what they establish is `GoodConfig`.
