/** The log of requests over the last second: batches compacted in place, compared with
    the full history of calls. */
module Requests {

  /** Times are in nanoseconds. */
  const SECOND: int := 1_000_000_000

  datatype RequestsBatch = RequestsBatch(timestamp: int, count: int)

  /** One call made to the logger. */
  datatype Call = Log(ts: int, idle: int, busy: int) | LastSecCount(now: int)

  /** Every call drops what is a second older than its own time. */
  function Cutoff(c: Call): int {
    if c.Log? then c.ts - SECOND else c.now - SECOND
  }

  function BatchOf(c: Call): seq<RequestsBatch> {
    if c.Log? && c.idle + c.busy > 0 then [RequestsBatch(c.ts, c.idle + c.busy)] else []
  }

  /** The batches newer than a cutoff, in order. */
  function Newer(s: seq<RequestsBatch>, cutoff: int): seq<RequestsBatch> {
    if s == [] then []
    else Newer(s[..|s| - 1], cutoff) + (if s[|s| - 1].timestamp > cutoff then [s[|s| - 1]] else [])
  }

  function Sum(s: seq<RequestsBatch>): int {
    if s == [] then 0 else Sum(s[..|s| - 1]) + s[|s| - 1].count
  }

  /** All the batches ever logged. */
  function All(calls: seq<Call>): seq<RequestsBatch> {
    if calls == [] then [] else All(calls[..|calls| - 1]) + BatchOf(calls[|calls| - 1])
  }

  /** The batches still held: each call adds its own, then prunes. */
  function Window(calls: seq<Call>): seq<RequestsBatch> {
    if calls == [] then []
    else Newer(Window(calls[..|calls| - 1]) + BatchOf(calls[|calls| - 1]), Cutoff(calls[|calls| - 1]))
  }

  /** The number of requests in the second before a time, by the window and in truth. */
  function Seen(calls: seq<Call>, now: int): int { Sum(Newer(Window(calls), now - SECOND)) }
  function Truth(calls: seq<Call>, now: int): int { Sum(Newer(All(calls), now - SECOND)) }

  /** The largest of the answers given to LastSecCount so far. */
  function Peak(calls: seq<Call>): int {
    if calls == [] then 0
    else
      var before, c := calls[..|calls| - 1], calls[|calls| - 1];
      if c.LastSecCount? && Seen(before, c.now) > Peak(before) then Seen(before, c.now) else Peak(before)
  }

  function Max(a: int, b: int): int { if a >= b then a else b }

  /* ---- filtering and summing -------------------------------------------------------- */

  lemma {:induction false} NewerConcat(a: seq<RequestsBatch>, b: seq<RequestsBatch>, cutoff: int)
    ensures Newer(a + b, cutoff) == Newer(a, cutoff) + Newer(b, cutoff)
    decreases |b|
  {
    if b == [] {
      assert a + b == a;
    } else {
      NewerConcat(a, b[..|b| - 1], cutoff);
      assert (a + b)[..|a + b| - 1] == a + b[..|b| - 1];
    }
  }

  lemma {:induction false} NewerTwice(s: seq<RequestsBatch>, c: int, d: int)
    ensures Newer(Newer(s, c), d) == Newer(s, Max(c, d))
  {
    if s != [] {
      var last := s[|s| - 1];
      NewerTwice(s[..|s| - 1], c, d);
      if last.timestamp > c {
        assert Newer(s, c)[..|Newer(s, c)| - 1] == Newer(s[..|s| - 1], c);
      } else {
        assert Newer(s, c) == Newer(s[..|s| - 1], c);
        assert Newer(s, Max(c, d)) == Newer(s[..|s| - 1], Max(c, d));
      }
    }
  }

  lemma {:induction false} SumConcat(a: seq<RequestsBatch>, b: seq<RequestsBatch>)
    ensures Sum(a + b) == Sum(a) + Sum(b)
    decreases |b|
  {
    if b == [] {
      assert a + b == a;
    } else {
      SumConcat(a, b[..|b| - 1]);
      assert (a + b)[..|a + b| - 1] == a + b[..|b| - 1];
    }
  }

  ghost predicate Positive(s: seq<RequestsBatch>) {
    forall k :: 0 <= k < |s| ==> s[k].count > 0
  }

  /** Some batch lies after c but not after d. */
  ghost predicate Between(s: seq<RequestsBatch>, c: int, d: int) {
    exists k :: 0 <= k < |s| && c < s[k].timestamp <= d
  }

  lemma SumNewerLast(s: seq<RequestsBatch>, c: int)
    requires s != []
    ensures Sum(Newer(s, c)) == Sum(Newer(s[..|s| - 1], c)) + if s[|s| - 1].timestamp > c then s[|s| - 1].count else 0
  {
    SumConcat(Newer(s[..|s| - 1], c), if s[|s| - 1].timestamp > c then [s[|s| - 1]] else []);
  }

  lemma BetweenLast(s: seq<RequestsBatch>, c: int, d: int)
    requires s != []
    ensures Between(s, c, d) <==> Between(s[..|s| - 1], c, d) || c < s[|s| - 1].timestamp <= d
  {
    assert forall k :: 0 <= k < |s| - 1 ==> s[k] == s[..|s| - 1][k];
    if Between(s[..|s| - 1], c, d) {
      var k :| 0 <= k < |s| - 1 && c < s[..|s| - 1][k].timestamp <= d;
      assert c < s[k].timestamp <= d;
    }
  }

  /** A later cutoff keeps less, and exactly as much when no batch lies in between. */
  lemma {:induction false} LaterCutoff(s: seq<RequestsBatch>, c: int, d: int)
    requires Positive(s) && c <= d
    ensures Sum(Newer(s, d)) <= Sum(Newer(s, c))
    ensures Sum(Newer(s, d)) == Sum(Newer(s, c)) <==> !Between(s, c, d)
  {
    if s != [] {
      LaterCutoff(s[..|s| - 1], c, d);
      SumNewerLast(s, c);
      SumNewerLast(s, d);
      BetweenLast(s, c, d);
    }
  }

  /** A second is a thousand million nanoseconds, and a batch is in the last second as long
      as less than that has passed. */
  lemma LastSecondMeans(b: RequestsBatch, now: int)
    ensures Newer([b], now - SECOND) == if now - b.timestamp < 1_000_000_000 then [b] else []
  {
    assert [b][..0] == [];
  }

  /* ---- the window against the history ------------------------------------------------- */

  lemma {:induction false} AllPositive(calls: seq<Call>)
    ensures Positive(All(calls))
  {
    if calls != [] { AllPositive(calls[..|calls| - 1]); }
  }

  /** What the last call does to what a query at cutoff c sees. */
  lemma WindowLast(calls: seq<Call>, c: int)
    requires calls != []
    ensures var before, last := calls[..|calls| - 1], calls[|calls| - 1];
            && Newer(Window(calls), c) == Newer(Window(before), Max(c, Cutoff(last))) + Newer(BatchOf(last), c)
            && Newer(All(calls), c) == Newer(All(before), c) + Newer(BatchOf(last), c)
  {
    var before, last := calls[..|calls| - 1], calls[|calls| - 1];
    var all := Window(before) + BatchOf(last);
    NewerTwice(all, Cutoff(last), c);
    NewerConcat(Window(before), BatchOf(last), Max(c, Cutoff(last)));
    NewerConcat(All(before), BatchOf(last), c);
    OwnBatch(last, c);
  }

  /** A call never drops the batch it adds. */
  lemma OwnBatch(call: Call, c: int)
    ensures Newer(BatchOf(call), Max(c, Cutoff(call))) == Newer(BatchOf(call), c)
  {
  }

  /** The window holds what the full history holds, in the same order, as far back as no
      call has pruned yet. */
  lemma {:induction false} WindowIsHistory(calls: seq<Call>, c: int)
    requires forall k :: 0 <= k < |calls| ==> Cutoff(calls[k]) <= c
    ensures Newer(Window(calls), c) == Newer(All(calls), c)
  {
    if calls != [] {
      WindowLast(calls, c);
      WindowIsHistory(calls[..|calls| - 1], c);
    }
  }

  /** So a query that is not before any earlier call counts the last second exactly. */
  lemma CountIsTrue(calls: seq<Call>, now: int)
    requires forall k :: 0 <= k < |calls| ==> Cutoff(calls[k]) <= now - SECOND
    ensures Seen(calls, now) == Truth(calls, now)
  {
    WindowIsHistory(calls, now - SECOND);
  }

  /** A call from number i on pruned a batch logged by call i that cutoff c would keep. */
  ghost predicate Lost(calls: seq<Call>, c: int) {
    exists i, j :: 0 <= i <= j < |calls| && Drops(calls[i], calls[j], c)
  }

  ghost predicate Drops(logging: Call, pruning: Call, c: int) {
    BatchOf(logging) != [] && c < logging.ts <= Cutoff(pruning)
  }

  lemma {:induction false} BatchesOfCalls(calls: seq<Call>, c: int, d: int)
    ensures Between(All(calls), c, d) <==>
            exists i :: 0 <= i < |calls| && BatchOf(calls[i]) != [] && c < calls[i].ts <= d
  {
    if calls != [] {
      var n := |calls| - 1;
      BatchesOfCalls(calls[..n], c, d);
      if BatchOf(calls[n]) != [] {
        BetweenLast(All(calls), c, d);
        assert All(calls)[..|All(calls)| - 1] == All(calls[..n]);
      } else {
        assert All(calls) == All(calls[..n]);
      }
      assert forall i :: 0 <= i < n ==> calls[i] == calls[..n][i];
    }
  }

  /** The last call has lost something for c when an earlier one had for the later of the
      two cutoffs, or a batch lies between them. */
  lemma LostLast(calls: seq<Call>, c: int)
    requires calls != []
    ensures var before, cut := calls[..|calls| - 1], Cutoff(calls[|calls| - 1]);
            Lost(calls, c) <==> Lost(before, Max(c, cut)) || Between(All(before), c, Max(c, cut))
  {
    var n := |calls| - 1;
    var before, cut := calls[..n], Cutoff(calls[n]);
    BatchesOfCalls(before, c, Max(c, cut));
    assert forall i :: 0 <= i < n ==> calls[i] == before[i];
    if Lost(calls, c) {
      var i, j :| 0 <= i <= j < |calls| && Drops(calls[i], calls[j], c);
      assert i < n;
      if j == n {
        assert c < before[i].ts <= Max(c, cut);
      } else if before[i].ts > Max(c, cut) {
        assert Drops(before[i], before[j], Max(c, cut));
      }
    }
    if Lost(before, Max(c, cut)) {
      var i, j :| 0 <= i <= j < n && Drops(before[i], before[j], Max(c, cut));
      assert Drops(calls[i], calls[j], c);
    }
    if Between(All(before), c, Max(c, cut)) {
      var i :| 0 <= i < n && BatchOf(before[i]) != [] && c < before[i].ts <= Max(c, cut);
      assert Drops(calls[i], calls[n], c);
    }
  }

  /** In general the window never counts too much, and it counts exactly unless a batch
      of the last second was already pruned by a call with a later time. */
  lemma {:induction false} WindowExact(calls: seq<Call>, c: int)
    ensures Sum(Newer(Window(calls), c)) <= Sum(Newer(All(calls), c))
    ensures Sum(Newer(Window(calls), c)) == Sum(Newer(All(calls), c)) <==> !Lost(calls, c)
  {
    if calls != [] {
      var before, last := calls[..|calls| - 1], calls[|calls| - 1];
      var m := Max(c, Cutoff(last));
      WindowLast(calls, c);
      SumConcat(Newer(Window(before), m), Newer(BatchOf(last), c));
      SumConcat(Newer(All(before), c), Newer(BatchOf(last), c));
      WindowExact(before, m);
      AllPositive(before);
      LaterCutoff(All(before), c, m);
      LostLast(calls, c);
    }
  }

  lemma CountExact(calls: seq<Call>, now: int)
    ensures Seen(calls, now) <= Truth(calls, now)
    ensures Seen(calls, now) == Truth(calls, now) <==> !Lost(calls, now - SECOND)
  {
    WindowExact(calls, now - SECOND);
  }

  lemma OneMoreCall(calls: seq<Call>, call: Call)
    ensures Window(calls + [call]) == Newer(Window(calls) + BatchOf(call), Cutoff(call))
    ensures All(calls + [call]) == All(calls) + BatchOf(call)
  {
    assert (calls + [call])[..|calls|] == calls;
  }

  lemma OneMorePeak(calls: seq<Call>, call: Call)
    ensures Peak(calls + [call]) == if call.LastSecCount? then Max(Seen(calls, call.now), Peak(calls)) else Peak(calls)
  {
    assert (calls + [call])[..|calls|] == calls;
  }

  lemma NewerOfOne(b: RequestsBatch, c: int)
    ensures Newer([b], c) == if b.timestamp > c then [b] else []
    ensures Sum([b]) == b.count && Sum([]) == 0
  {
    assert [b][..0] == [];
  }

  /** Queries read the clock themselves, and it never goes back; the time of a Log is the
      caller's. The clock's reading at call k is at least that of every query before. */
  ghost predicate Clocked(calls: seq<Call>, now: int) {
    forall k :: 0 <= k < |calls| && calls[k].LastSecCount? ==> calls[k].now <= now
  }

  ghost predicate LoggedInTime(calls: seq<Call>, now: int) {
    forall k :: 0 <= k < |calls| && calls[k].Log? ==> calls[k].ts <= now
  }

  /** As long as no Log is given a time ahead of the clock, every query counts the last
      second exactly. */
  lemma CountInTime(calls: seq<Call>, now: int)
    requires Clocked(calls, now) && LoggedInTime(calls, now)
    ensures Seen(calls, now) == Truth(calls, now)
  {
    CountIsTrue(calls, now);
  }

  /** So what a query misses was pruned by a Log with a time ahead of the clock. */
  lemma OnlyFutureLogsLose(calls: seq<Call>, now: int)
    requires Clocked(calls, now) && Seen(calls, now) != Truth(calls, now)
    ensures exists k :: 0 <= k < |calls| && calls[k].Log? && calls[k].ts > now
  {
    if LoggedInTime(calls, now) {
      CountInTime(calls, now);
    }
  }

  /** A Log with a time ahead of the clock can make the next query count too little. */
  lemma FutureLogLoses()
    ensures var calls := [] + [Log(0, 3, 0)] + [Log(SECOND, 0, 0)];
            Seen(calls, SECOND - 1) == 0 && Truth(calls, SECOND - 1) == 3
  {
    var logged: seq<Call> := [] + [Log(0, 3, 0)];
    OneBatch();
    OneMoreCall(logged, Log(SECOND, 0, 0));
    NewerOfOne(RequestsBatch(0, 3), 0);
    NewerOfOne(RequestsBatch(0, 3), -1);
  }

  lemma OneBatch()
    ensures var logged: seq<Call> := [] + [Log(0, 3, 0)];
            Window(logged) == [RequestsBatch(0, 3)] == All(logged)
  {
    OneMoreCall([], Log(0, 3, 0));
    NewerOfOne(RequestsBatch(0, 3), -SECOND);
  }

  lemma LogKeepsPeak(calls: seq<Call>, call: Call)
    requires call.Log?
    ensures Peak(calls + [call]) == Peak(calls)
  {
    assert (calls + [call])[..|calls|] == calls;
  }

  lemma LogWindow(calls: seq<Call>, call: Call, held: seq<RequestsBatch>)
    requires held == Newer(Window(calls) + BatchOf(call), Cutoff(call))
    ensures held == Window(calls + [call])
  {
    assert (calls + [call])[..|calls|] == calls;
  }

  /** The window and the peak after one more Log. */
  lemma Recorded(calls: seq<Call>, ts: int, idle: int, busy: int, held: seq<RequestsBatch>, peak: int)
    requires held == Newer(Window(calls) + BatchOf(Log(ts, idle, busy)), ts - SECOND) && peak == Peak(calls)
    ensures held == Window(calls + [Log(ts, idle, busy)]) && peak == Peak(calls + [Log(ts, idle, busy)])
  {
    var call := Log(ts, idle, busy);
    assert Cutoff(call) == ts - SECOND;
    LogWindow(calls, call, held);
    LogKeepsPeak(calls, call);
  }

  /** The window and the peak after one more LastSecCount. */
  lemma Counted(calls: seq<Call>, now: int, held: seq<RequestsBatch>, peak: int)
    requires held == Newer(Window(calls), now - SECOND) && peak == Max(Seen(calls, now), Peak(calls))
    ensures held == Window(calls + [LastSecCount(now)]) && peak == Peak(calls + [LastSecCount(now)])
  {
    OneMoreCall(calls, LastSecCount(now));
    OneMorePeak(calls, LastSecCount(now));
    assert Window(calls) + BatchOf(LastSecCount(now)) == Window(calls);
  }

  lemma NewerStep(s: seq<RequestsBatch>, i: nat, cutoff: int)
    requires i < |s|
    ensures Newer(s[..i + 1], cutoff) ==
            if s[i].timestamp > cutoff then Newer(s[..i], cutoff) + [s[i]] else Newer(s[..i], cutoff)
  {
    assert s[..i + 1][..i] == s[..i];
  }

  /** The first i of the old batches have been gone through. */
  ghost predicate Pruned(was: seq<RequestsBatch>, i: nat, cutoff: int, kept: seq<RequestsBatch>, sum: int) {
    i <= |was| && kept == Newer(was[..i], cutoff) && sum == Sum(kept)
  }

  lemma PrunedStep(was: seq<RequestsBatch>, i: nat, cutoff: int, kept: seq<RequestsBatch>, sum: int)
    requires Pruned(was, i, cutoff, kept, sum) && i < |was|
    ensures if was[i].timestamp > cutoff then Pruned(was, i + 1, cutoff, kept + [was[i]], sum + was[i].count)
            else Pruned(was, i + 1, cutoff, kept, sum)
  {
    NewerStep(was, i, cutoff);
    SumConcat(kept, [was[i]]);
    NewerOfOne(was[i], cutoff);
  }

  lemma PrunedEnd(was: seq<RequestsBatch>, cutoff: int, kept: seq<RequestsBatch>, sum: int)
    requires Pruned(was, |was|, cutoff, kept, sum)
    ensures kept == Newer(was, cutoff) && sum == Sum(kept)
  {
    assert was[..|was|] == was;
  }

  /** A larger array with the same batches in front. */
  method Enlarged(a: array<RequestsBatch>, b: RequestsBatch) returns (larger: array<RequestsBatch>)
    ensures fresh(larger) && larger.Length == 2 * a.Length + 1 && larger[..a.Length] == a[..]
  {
    larger := new RequestsBatch[2 * a.Length + 1](_ => b);
    for i := 0 to a.Length
      invariant forall k :: 0 <= k < i ==> larger[k] == a[k]
    {
      larger[i] := a[i];
    }
  }

  /* ---- the logger itself ----------------------------------------------------------------- */

  class RequestsLogger {
    var idle: int
    var busy: int
    var oneSecPeak: int
    var buffer: array<RequestsBatch>
    var size: nat                     // the batches are buffer[..size]
    ghost var calls: seq<Call>        // every call made so far

    ghost predicate Valid()
      reads this, buffer
    {
      size <= buffer.Length && buffer[..size] == Window(calls) && oneSecPeak == Peak(calls)
    }

    constructor ()
      ensures Valid() && calls == [] && fresh(buffer) && idle == busy == 0
    {
      idle, busy, oneSecPeak, size, calls := 0, 0, 0, 0, [];
      buffer := new RequestsBatch[0];
    }

    method Append(b: RequestsBatch)
      requires size <= buffer.Length
      modifies this`buffer, this`size, buffer
      ensures size == old(size) + 1 <= buffer.Length && (buffer == old(buffer) || fresh(buffer))
      ensures buffer[..size] == old(buffer[..size]) + [b]
    {
      if size == buffer.Length {
        buffer := Enlarged(buffer, b);
      }
      buffer[size] := b;
      size := size + 1;
    }

    /** Drops the outdated batches in place and adds up the others. */
    method Prune(cutoff: int, ghost was: seq<RequestsBatch>) returns (sum: int)
      requires size <= buffer.Length && buffer[..size] == was
      modifies this`size, buffer
      ensures size <= buffer.Length && buffer[..size] == Newer(was, cutoff)
      ensures sum == Sum(buffer[..size])
    {
      ghost var kept := [];
      sum := 0;
      var keep, i := 0, 0;
      while i < size
        invariant 0 <= keep <= i <= size == |was| && size <= buffer.Length
        invariant forall k :: i <= k < size ==> buffer[k] == was[k]
        invariant buffer[..keep] == kept && Pruned(was, i, cutoff, kept, sum)
      {
        var b := buffer[i];
        PrunedStep(was, i, cutoff, kept, sum);
        if b.timestamp > cutoff {
          kept := kept + [b];
          buffer[keep] := b;
          keep := keep + 1;
          sum := sum + b.count;
        }
        i := i + 1;
      }
      PrunedEnd(was, cutoff, kept, sum);
      size := keep;
    }

    method Add(ts: int, total: int, ghost was: seq<RequestsBatch>)
      requires size <= buffer.Length && buffer[..size] == was
      modifies this`buffer, this`size, buffer
      ensures size <= buffer.Length && (buffer == old(buffer) || fresh(buffer))
      ensures buffer[..size] == was + if total > 0 then [RequestsBatch(ts, total)] else []
    {
      if total > 0 {
        Append(RequestsBatch(ts, total));
      }
    }

    method Record(ts: int, idleDelta: int, busyDelta: int, ghost was: seq<RequestsBatch>)
      requires size <= buffer.Length && buffer[..size] == was
      modifies this`idle, this`busy, this`buffer, this`size, buffer
      ensures size <= buffer.Length && (buffer == old(buffer) || fresh(buffer))
      ensures buffer[..size] == Newer(was + BatchOf(Call.Log(ts, idleDelta, busyDelta)), ts - SECOND)
      ensures idle == old(idle) + idleDelta && busy == old(busy) + busyDelta
    {
      idle := idle + idleDelta;
      busy := busy + busyDelta;
      Add(ts, idleDelta + busyDelta, was);
      var sum := Prune(ts - SECOND, was + BatchOf(Call.Log(ts, idleDelta, busyDelta)));
    }

    /** Records a batch and drops the outdated ones. */
    method Log(ts: int, idleDelta: int, busyDelta: int)
      requires Valid()
      modifies this, buffer
      ensures Valid() && (buffer == old(buffer) || fresh(buffer))
      ensures calls == old(calls) + [Call.Log(ts, idleDelta, busyDelta)]
      ensures idle == old(idle) + idleDelta && busy == old(busy) + busyDelta
    {
      Record(ts, idleDelta, busyDelta, Window(calls));
      Recorded(calls, ts, idleDelta, busyDelta, buffer[..size], oneSecPeak);
      calls := calls + [Call.Log(ts, idleDelta, busyDelta)];
    }

    method CountAndPrune(now: int, ghost was: seq<RequestsBatch>) returns (sum: int)
      requires size <= buffer.Length && buffer[..size] == was
      modifies this`size, this`oneSecPeak, buffer
      ensures size <= buffer.Length && buffer[..size] == Newer(was, now - SECOND)
      ensures sum == Sum(Newer(was, now - SECOND)) && oneSecPeak == Max(sum, old(oneSecPeak))
    {
      sum := Prune(now - SECOND, was);
      if sum > oneSecPeak {
        oneSecPeak := sum;
      }
    }

    /** The number of requests of the last second: never too many, and exactly right
        unless a batch of that second was pruned by an earlier call with a later time. */
    method LastSecCount(now: int) returns (sum: int)
      requires Valid()
      modifies this`size, this`oneSecPeak, this`calls, buffer
      ensures Valid() && calls == old(calls) + [Call.LastSecCount(now)]
      ensures sum <= Truth(old(calls), now)
      ensures sum == Truth(old(calls), now) <==> !Lost(old(calls), now - SECOND)
      ensures oneSecPeak == Max(sum, old(oneSecPeak))
    {
      CountExact(calls, now);
      sum := CountAndPrune(now, Window(calls));
      Counted(calls, now, buffer[..size], oneSecPeak);
      calls := calls + [Call.LastSecCount(now)];
    }
  }

  /** OneSecPeak is the largest of the counts that LastSecCount has returned: it is
      reached by one of them, and no other is larger. */
  lemma {:induction false} PeakIsLargest(calls: seq<Call>, k: nat)
    requires k < |calls| && calls[k].LastSecCount?
    ensures Seen(calls[..k], calls[k].now) <= Peak(calls)
  {
    var n := |calls| - 1;
    assert calls == calls[..n] + [calls[n]];
    OneMorePeak(calls[..n], calls[n]);
    if k < n {
      PeakIsLargest(calls[..n], k);
      EarlierCall(calls, n, k);
    }
  }

  lemma {:induction false} PeakIsReached(calls: seq<Call>)
    ensures Peak(calls) == 0 ||
            exists k :: 0 <= k < |calls| && calls[k].LastSecCount? && Seen(calls[..k], calls[k].now) == Peak(calls)
  {
    if calls != [] {
      var n := |calls| - 1;
      assert calls == calls[..n] + [calls[n]];
      OneMorePeak(calls[..n], calls[n]);
      if Peak(calls) == Peak(calls[..n]) && Peak(calls) != 0 {
        PeakIsReached(calls[..n]);
        var k :| 0 <= k < n && calls[..n][k].LastSecCount?
            && Seen(calls[..n][..k], calls[..n][k].now) == Peak(calls[..n]);
        EarlierCall(calls, n, k);
      }
    }
  }

  lemma EarlierCall(calls: seq<Call>, n: nat, k: nat)
    requires k < n <= |calls|
    ensures calls[..n][..k] == calls[..k] && calls[..n][k] == calls[k]
  {
  }
}
