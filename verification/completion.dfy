/** `Experiment.has_completed`: a walk over `job_id_list` that stops at the
    first job still in progress. A job whose lookup raises is logged and
    skipped, so it never holds the experiment back. */
module Completion {
  import opened Wrappers
  import opened Jobs

  /** A job that no longer holds the experiment back: the lookup failed, or
      the service reports the job completed. */
  predicate Settled(workspace: Workspace, id: JobId)
  {
    match workspace(id)
    case None => true
    case Some(job) => IsTerminal(job.status)
  }

  /** The answer `has_completed` gives. */
  function HasCompleted(ids: seq<JobId>, workspace: Workspace): (r: bool)
    ensures r <==> forall i :: 0 <= i < |ids| ==> Settled(workspace, ids[i])
  {
    if |ids| == 0 then true
    else Settled(workspace, ids[0]) && HasCompleted(ids[1..], workspace)
  }

  /** The loop as written, with its early return. `queried` counts the
      workspace lookups made: all of them when the answer is true, and up to
      and including the first unsettled job otherwise. */
  method CheckCompleted(ids: seq<JobId>, workspace: Workspace) returns (done: bool, queried: nat)
    ensures done == HasCompleted(ids, workspace)
    ensures 1 <= queried <= |ids| || (queried == 0 && ids == [])
    ensures done ==> queried == |ids|
    ensures !done ==> 0 < queried && !Settled(workspace, ids[queried - 1])
    ensures forall i :: 0 <= i < queried - 1 ==> Settled(workspace, ids[i])
  {
    queried := 0;
    for k := 0 to |ids|
      invariant queried == k
      invariant forall i :: 0 <= i < k ==> Settled(workspace, ids[i])
    {
      queried := queried + 1;
      var found := workspace(ids[k]);
      if found.Some? && !IsTerminal(found.value.status) {
        return false, queried;
      }
    }
    return true, queried;
  }

  /** Appending jobs can only un-complete an experiment: the longer list has
      completed exactly when both parts have. */
  lemma CompletedAppend(a: seq<JobId>, b: seq<JobId>, workspace: Workspace)
    ensures HasCompleted(a + b, workspace) <==> HasCompleted(a, workspace) && HasCompleted(b, workspace)
  {
    assert forall i :: 0 <= i < |a| ==> (a + b)[i] == a[i];
    assert forall i :: 0 <= i < |b| ==> (a + b)[|a| + i] == b[i];
  }
}
