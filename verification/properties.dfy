/** Properties that tie the operations together: what `submit` leaves behind
    as seen by `has_completed`, `get_experiment_details` and
    `get_experiment_details_as_string`. */
module Properties {
  import opened Wrappers
  import opened Jobs
  import opened Ledger
  import opened Submission
  import Completion
  import Flatten
  import Csv

  /** Right after construction nothing is pending, the CSV summary is the
      header alone, and the flattened details raise "Empty problem list". */
  lemma FreshExperiment(solvers: seq<Solver>, problems: seq<Problem>, n: int, experimentId: Option<string>,
                        uuid: string, now: string, workspace: Workspace, parse: JsonParser, show: Csv.Renderer)
    ensures var e := NewExperiment(solvers, problems, n, experimentId, uuid, now);
      && Completion.HasCompleted(e.jobIds, workspace)
      && Csv.Header + Csv.Lines(e.jobIds, Csv.LineOf(workspace, parse, show)) == Csv.Header
      && Flatten.GetExperimentDetails(e, workspace, parse) == Err(EmptyProblemList)
  {
    assert Csv.Header + "" == Csv.Header;
  }

  /** After one `submit` on a fresh experiment, `job_id_list` and the ledger
      list the same ids in the same order, so the CSV summary and the
      flattened details walk the same jobs. */
  lemma FreshSubmitWalksAgree(solvers: seq<Solver>, problems: seq<Problem>, n: int, experimentId: Option<string>,
                              uuid: string, now: string, submit: SubmitOracle)
    ensures var e := Submit(NewExperiment(solvers, problems, n, experimentId, uuid, now), submit);
      e.jobIds == LedgerIds(e.ledger)
  {
    SubmitRecordsLedgerIds(NewExperiment(solvers, problems, n, experimentId, uuid, now), submit);
  }

  /** A second `submit` replaces the ledger but keeps appending to
      `job_id_list`: the CSV summary then lists both batches while the
      flattened details list only the second. */
  lemma ResubmitForgetsLedger(e: Experiment, first: SubmitOracle, second: SubmitOracle)
    ensures var e1 := Submit(e, first);
      var e2 := Submit(e1, second);
      && e2.ledger == Submit(e, second).ledger
      && e2.jobIds == e.jobIds + LedgerIds(e1.ledger) + LedgerIds(e2.ledger)
  {
    SubmitRecordsLedgerIds(e, first);
    SubmitRecordsLedgerIds(Submit(e, first), second);
  }

  /** On a ledger left by `submit`, `get_experiment_details` raises exactly
      when no solver was kept. */
  lemma SubmittedDetailsFail(e: Experiment, submit: SubmitOracle, workspace: Workspace, parse: JsonParser)
    ensures var e' := Submit(e, submit);
      Flatten.GetExperimentDetails(e', workspace, parse).Err? <==> e'.ledger == []
  {
    var e' := Submit(e, submit);
    KeptHaveProblems(submit, e.solvers, e.problems, e.numIterations, |e.solvers|);
    forall k | 0 <= k < |e'.ledger|
      ensures e'.ledger[k].problems != []
    {
      assert e'.ledger[k] in e'.ledger;
    }
  }

  /** Submitting more jobs can only un-complete an experiment: it has
      completed afterwards exactly when it had before and every new job is
      settled. */
  lemma CompletionAfterSubmit(e: Experiment, submit: SubmitOracle, workspace: Workspace)
    ensures var e' := Submit(e, submit);
      Completion.HasCompleted(e'.jobIds, workspace) <==>
        Completion.HasCompleted(e.jobIds, workspace) && Completion.HasCompleted(LedgerIds(e'.ledger), workspace)
  {
    SubmitRecordsLedgerIds(e, submit);
    Completion.CompletedAppend(e.jobIds, LedgerIds(Submit(e, submit).ledger), workspace);
  }

  /** End to end: when every submission succeeds and every job can be looked
      up and described, a fresh experiment's details hold one record per
      solver, problem and iteration. */
  lemma EndToEndCount(solvers: seq<Solver>, problems: seq<Problem>, n: int, experimentId: Option<string>,
                      uuid: string, now: string, submit: SubmitOracle, workspace: Workspace, parse: JsonParser)
    requires NeverFails(submit, |solvers|, |problems|, n)
    requires forall id :: Flatten.Reportable(id, workspace, parse)
    requires |solvers| >= 1 && |problems| >= 1 && n >= 1
    ensures var e := Submit(NewExperiment(solvers, problems, n, experimentId, uuid, now), submit);
      var r := Flatten.GetExperimentDetails(e, workspace, parse);
      r.Ok? && |r.value| == |solvers| * (|problems| * n)
  {
    var e0 := NewExperiment(solvers, problems, n, experimentId, uuid, now);
    var e := Submit(e0, submit);
    AllSubmissionsSucceed(e0, submit);
    SubmittedDetailsFail(e0, submit, workspace, parse);
    FreshSubmitWalksAgree(solvers, problems, n, experimentId, uuid, now, submit);
    Flatten.ReportedAll(LedgerIds(e.ledger), workspace, parse);
  }
}
