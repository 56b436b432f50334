/** One poll cycle's scan of the allocation list (main.go, the inner loop of
    checkJobStatus): the first allocation of the tracked job whose client
    status is recognised decides the verdict; everything else is skipped. */
module Allocations {
  import opened Wrappers
  import opened Icinga

  /** The two fields of an allocation stub the check reads. */
  datatype Allocation = Allocation(jobId: string, clientStatus: string)

  /** The verdict one allocation's client status yields, if any:
      complete is a WARNING, running is OK, failed is CRITICAL. */
  function StatusVerdict(alloc: Allocation): (r: Option<Report>)
    ensures r.Some? <==> alloc.clientStatus in {"complete", "running", "failed"}
    ensures alloc.clientStatus == "complete" ==>
      r == Some(ReportStatus(WARNING, "Job " + alloc.jobId + " is completed"))
    ensures alloc.clientStatus == "running" ==>
      r == Some(ReportStatus(OK, "Job " + alloc.jobId + " running successfully"))
    ensures alloc.clientStatus == "failed" ==>
      r == Some(ReportStatus(CRITICAL, alloc.jobId + " Job failed"))
    ensures r.Some? ==> r.value.exitCode in {OK, WARNING, CRITICAL}
  {
    if alloc.clientStatus == "complete" then
      Some(ReportStatus(WARNING, "Job " + alloc.jobId + " is completed"))
    else if alloc.clientStatus == "running" then
      Some(ReportStatus(OK, "Job " + alloc.jobId + " running successfully"))
    else if alloc.clientStatus == "failed" then
      Some(ReportStatus(CRITICAL, alloc.jobId + " Job failed"))
    else None
  }

  /** An allocation decides the cycle when it belongs to the tracked job and
      its status yields a verdict. */
  predicate Decides(alloc: Allocation, jobId: string)
  {
    alloc.jobId == jobId && StatusVerdict(alloc).Some?
  }

  /** The verdict of one cycle: that of the first deciding allocation in list
      order, or none at all when no allocation decides. */
  function Scan(allocs: seq<Allocation>, jobId: string): (r: Option<Report>)
    ensures r.None? <==> forall i :: 0 <= i < |allocs| ==> !Decides(allocs[i], jobId)
    ensures r.Some? ==>
      exists i :: 0 <= i < |allocs| && Decides(allocs[i], jobId)
        && (forall j :: 0 <= j < i ==> !Decides(allocs[j], jobId))
        && r == StatusVerdict(allocs[i])
    ensures r.Some? ==> r.value.exitCode in {OK, WARNING, CRITICAL}
  {
    if |allocs| == 0 then None
    else if Decides(allocs[0], jobId) then
      StatusVerdict(allocs[0])
    else
      var rest := Scan(allocs[1..], jobId);
      assert forall i :: 1 <= i < |allocs| ==> allocs[i] == allocs[1..][i - 1];
      if rest.Some? then
        ghost var k :| 0 <= k < |allocs[1..]| && Decides(allocs[1..][k], jobId)
          && (forall j :: 0 <= j < k ==> !Decides(allocs[1..][j], jobId))
          && rest == StatusVerdict(allocs[1..][k]);
        assert allocs[k + 1] == allocs[1..][k];
        rest
      else
        rest
  }

  /** The scan as main.go writes it: a loop over the list that returns as
      soon as a matching allocation has a recognised status. */
  method ScanAllocations(allocs: seq<Allocation>, jobId: string) returns (r: Option<Report>)
    ensures r == Scan(allocs, jobId)
  {
    for i := 0 to |allocs|
      invariant Scan(allocs, jobId) == Scan(allocs[i..], jobId)
    {
      var alloc := allocs[i];
      assert allocs[i..][1..] == allocs[i + 1..];
      if alloc.jobId == jobId {
        if alloc.clientStatus == "complete" {
          return Some(ReportStatus(WARNING, "Job " + alloc.jobId + " is completed"));
        } else if alloc.clientStatus == "running" {
          return Some(ReportStatus(OK, "Job " + alloc.jobId + " running successfully"));
        } else if alloc.clientStatus == "failed" {
          return Some(ReportStatus(CRITICAL, alloc.jobId + " Job failed"));
        }
      }
    }
    return None;
  }

  /** Concatenated lists: a verdict in the first part is final, whatever
      follows it; a first part without one is skipped entirely. */
  lemma {:induction false} ScanAppend(front: seq<Allocation>, back: seq<Allocation>, jobId: string)
    ensures Scan(front + back, jobId) ==
      if Scan(front, jobId).Some? then Scan(front, jobId) else Scan(back, jobId)
  {
    if |front| == 0 {
      assert front + back == back;
    } else {
      assert (front + back)[1..] == front[1..] + back;
      ScanAppend(front[1..], back, jobId);
    }
  }
}
