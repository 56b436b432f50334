/** The poll loop of checkJobStatus (main.go) as a small state machine. Each
    iteration checks the timeout first, then queries the allocation list, then
    scans it; a cycle without a verdict goes round again after a one-second
    sleep. The wall clock and the network become one observation per
    iteration: the time elapsed since the loop began and the query's result. */
module Poller {
  import opened Wrappers
  import opened Icinga
  import opened Allocations

  /** Nanoseconds per second: elapsed time is a Go duration, in nanoseconds. */
  const NanosPerSecond: nat := 1_000_000_000

  /** Outcome of the allocation-list query. */
  datatype QueryResult = Listed(allocations: seq<Allocation>) | QueryFailed(error: string)

  /** What one iteration sees: the elapsed time when it starts and what the
      query it makes would return. */
  datatype Observation = Observation(elapsed: nat, query: QueryResult)

  /** After one iteration the loop either goes round again or has reported. */
  datatype Step = Continue | Stop(report: Report)

  /** The timeout has passed: elapsed time strictly beyond `timeout` seconds. */
  predicate TimedOut(elapsed: nat, timeout: int)
  {
    elapsed > timeout * NanosPerSecond
  }

  /** One iteration of the loop. */
  function PollStep(obs: Observation, timeout: int, jobId: string): (s: Step)
    ensures TimedOut(obs.elapsed, timeout) ==> s == Stop(ReportStatus(CRITICAL, "Job timed out"))
    ensures !TimedOut(obs.elapsed, timeout) && obs.query.QueryFailed? ==>
      s == Stop(ReportStatus(CRITICAL, "Error getting allocations: " + obs.query.error))
    ensures s.Continue? <==>
      !TimedOut(obs.elapsed, timeout) && obs.query.Listed? && Scan(obs.query.allocations, jobId).None?
    ensures !TimedOut(obs.elapsed, timeout) && obs.query.Listed? && s.Stop? ==>
      Some(s.report) == Scan(obs.query.allocations, jobId)
    ensures s.Stop? ==> s.report.exitCode in {OK, WARNING, CRITICAL}
  {
    if TimedOut(obs.elapsed, timeout) then
      Stop(ReportStatus(CRITICAL, "Job timed out"))
    else
      match obs.query
      case QueryFailed(error) =>
        Stop(ReportStatus(CRITICAL, "Error getting allocations: " + error))
      case Listed(allocations) =>
        match Scan(allocations, jobId)
        case None => Continue
        case Some(report) => Stop(report)
  }

  /** The loop run over a finite sequence of iterations: the report of the
      first iteration that stops, or none when every one of them goes round
      again (the process is then still polling). */
  function Poll(observations: seq<Observation>, timeout: int, jobId: string): (r: Option<Report>)
    ensures r.None? <==>
      forall i :: 0 <= i < |observations| ==> PollStep(observations[i], timeout, jobId).Continue?
    ensures r.Some? ==>
      exists i :: 0 <= i < |observations|
        && (forall j :: 0 <= j < i ==> PollStep(observations[j], timeout, jobId).Continue?)
        && PollStep(observations[i], timeout, jobId) == Stop(r.value)
    ensures r.Some? ==> r.value.exitCode in {OK, WARNING, CRITICAL}
  {
    if |observations| == 0 then None
    else
      match PollStep(observations[0], timeout, jobId)
      case Stop(report) => Some(report)
      case Continue =>
        var rest := Poll(observations[1..], timeout, jobId);
        assert forall i :: 1 <= i < |observations| ==> observations[i] == observations[1..][i - 1];
        if rest.Some? then
          ghost var k :| 0 <= k < |observations[1..]|
            && (forall j :: 0 <= j < k ==> PollStep(observations[1..][j], timeout, jobId).Continue?)
            && PollStep(observations[1..][k], timeout, jobId) == Stop(rest.value);
          assert observations[k + 1] == observations[1..][k];
          rest
        else
          rest
  }

  /** The loop as main.go writes it: check the timeout, query, scan with
      an early return, and otherwise go round again. */
  method CheckJobStatus(observations: seq<Observation>, timeout: int, jobId: string)
    returns (r: Option<Report>)
    ensures r == Poll(observations, timeout, jobId)
  {
    for n := 0 to |observations|
      invariant Poll(observations, timeout, jobId) == Poll(observations[n..], timeout, jobId)
    {
      var obs := observations[n];
      assert observations[n..][1..] == observations[n + 1..];
      if obs.elapsed > timeout * NanosPerSecond {
        return Some(ReportStatus(CRITICAL, "Job timed out"));
      }
      match obs.query {
        case QueryFailed(error) =>
          return Some(ReportStatus(CRITICAL, "Error getting allocations: " + error));
        case Listed(allocations) =>
          var verdict := ScanAllocations(allocations, jobId);
          if verdict.Some? {
            return verdict;
          }
      }
    }
    return None;
  }

  /** Once a verdict is emitted, later iterations cannot change it; iterations
      without one leave no trace. */
  lemma {:induction false} PollAppend(front: seq<Observation>, back: seq<Observation>, timeout: int, jobId: string)
    ensures Poll(front + back, timeout, jobId) ==
      if Poll(front, timeout, jobId).Some? then Poll(front, timeout, jobId) else Poll(back, timeout, jobId)
  {
    if |front| == 0 {
      assert front + back == back;
    } else {
      assert (front + back)[1..] == front[1..] + back;
      PollAppend(front[1..], back, timeout, jobId);
    }
  }

  /** The timeout is checked before the query: once it has passed, what the
      query would have returned makes no difference. */
  lemma TimeoutPrecedesQuery(elapsed: nat, q1: QueryResult, q2: QueryResult, timeout: int, jobId: string)
    requires TimedOut(elapsed, timeout)
    ensures PollStep(Observation(elapsed, q1), timeout, jobId) == PollStep(Observation(elapsed, q2), timeout, jobId)
    ensures PollStep(Observation(elapsed, q1), timeout, jobId).report.exitCode == CRITICAL
  {
  }

  /** An iteration at exactly the timeout does not time out: the comparison
      is strict, so the query and scan still run; one nanosecond later the
      same iteration times out. */
  lemma DeadlineItselfIsNotTimeout(timeout: nat, allocations: seq<Allocation>, jobId: string)
    ensures PollStep(Observation(timeout * NanosPerSecond, Listed(allocations)), timeout, jobId)
         == if Scan(allocations, jobId).Some? then Stop(Scan(allocations, jobId).value) else Continue
    ensures PollStep(Observation(timeout * NanosPerSecond + 1, Listed(allocations)), timeout, jobId)
         == Stop(ReportStatus(CRITICAL, "Job timed out"))
  {
  }

  /** An iteration that sees the timeout passed ends the loop, at that
      iteration or an earlier one. */
  lemma TimeoutEndsPolling(observations: seq<Observation>, timeout: int, jobId: string, i: nat)
    requires i < |observations| && TimedOut(observations[i].elapsed, timeout)
    ensures Poll(observations, timeout, jobId).Some?
  {
  }

  /** Each iteration that goes round again sleeps one second first, so the
      k-th iteration starts at least k seconds after the loop began. */
  ghost predicate SleepsBetweenIterations(observations: seq<Observation>)
  {
    forall k :: 0 <= k < |observations| ==> observations[k].elapsed >= k * NanosPerSecond
  }

  /** With the one-second sleep, the loop has reported by its
      (timeout + 2)-th iteration whatever the queries return. */
  lemma PollingEndsByDeadline(observations: seq<Observation>, timeout: int, jobId: string)
    requires SleepsBetweenIterations(observations)
    requires |observations| >= (if timeout < 0 then 0 else timeout) + 2
    ensures Poll(observations, timeout, jobId).Some?
  {
    var k: nat := (if timeout < 0 then 0 else timeout) + 1;
    assert observations[k].elapsed >= k * NanosPerSecond;
    assert TimedOut(observations[k].elapsed, timeout);
    TimeoutEndsPolling(observations, timeout, jobId, k);
  }
}
