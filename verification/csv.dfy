/** `get_job_details_as_string` and `get_experiment_details_as_string`: the
    CSV-style summary, one line per job id that can be looked up and rendered. */
module Csv {
  import opened Wrappers
  import opened Jobs
  import Text

  const Header := "\ncreation_time, id, target, status, total_time, queue_time, execution_time, cost, error_message"

  /** What a column holds when its value cannot be computed for the status. */
  const Null := "null"

  /** `str` of a datetime and `str` of a number of seconds, left abstract. */
  datatype Renderer = Renderer(showTime: int -> string, showSeconds: int -> string)

  /** `str(None)`, which is what a null cost renders as. */
  const NoneText := "None"

  /** The cost column of a Succeeded job. Unlike the record builder, nothing
      here catches the service's RuntimeError or a missing key. */
  function CostCell(res: Results): (r: Result<string>)
    ensures r.Ok? <==>
      && res.Payload? && res.solutions.Present? && |res.solutions.value| > 0
      && !res.solutions.value[0].cost.Missing?
    ensures r.Ok? && res.solutions.value[0].cost.Present? ==> r.value == res.solutions.value[0].cost.value
    ensures r.Ok? && res.solutions.value[0].cost.NullEntry? ==> r.value == NoneText
  {
    match res
    case RuntimeFailure => Err(RuntimeError)
    case Payload(_, _, solutions) =>
      match solutions
      case Missing => Err(KeyError)
      case NullEntry => Err(TypeError)
      case Present(list) =>
        if |list| == 0 then Err(IndexError)
        else match list[0].cost
          case Missing => Err(KeyError)
          case NullEntry => Ok(NoneText)
          case Present(c) => Ok(c)
  }

  /** The `message` of the parsed error payload, with every newline removed,
      stripped, and wrapped in double quotes. */
  function ErrorMessageCell(errorText: string, parse: JsonParser): (r: Result<string>)
    ensures r.Ok? <==>
      && parse(QuotesNormalised(errorText)).Some?
      && parse(QuotesNormalised(errorText)).value.JObject?
      && "message" in parse(QuotesNormalised(errorText)).value.fields
      && parse(QuotesNormalised(errorText)).value.fields["message"].JString?
    ensures r.Ok? ==>
      var m := r.value;
      && |m| >= 2 && m[0] == '"' && m[|m| - 1] == '"'
      && '\n' !in m[1..|m| - 1]
      && (|m| == 2 || (!Text.IsSpace(m[1]) && !Text.IsSpace(m[|m| - 2])))
    ensures r.Ok? ==>
      r.value == "\"" + Text.Strip(Text.RemoveChar(parse(QuotesNormalised(errorText)).value.fields["message"].s, '\n')) + "\""
  {
    match parse(QuotesNormalised(errorText))
    case None => Err(DecodeError)
    case Some(data) =>
      if !data.JObject? then Err(TypeError)
      else if "message" !in data.fields then Err(KeyError)
      else if !data.fields["message"].JString? then Err(AttributeError)
      else
        var removed := Text.RemoveChar(data.fields["message"].s, '\n');
        Text.StripAbsent(removed, '\n');
        var inner := Text.Strip(removed);
        var cell := "\"" + inner + "\"";
        assert cell[1..|cell| - 1] == inner;
        Ok(cell)
  }

  /** When rendering a job's line raises (and the line is skipped). */
  predicate LineRaises(job: JobInfo, parse: JsonParser)
  {
    match job.status
    case Succeeded =>
      || job.beginExecutionTime.None?
      || job.endExecutionTime.None?
      || CostCell(job.results).Err?
    case Failed => ErrorMessageCell(job.errorText, parse).Err?
    case Cancelled => job.cancellationTime.None?
    case Executing => job.beginExecutionTime.None?
    case _ => false
  }

  /** The nine columns of one job's line, in header order. */
  function JobCells(job: JobInfo, parse: JsonParser, show: Renderer): (r: Result<seq<string>>)
    ensures r.Err? <==> LineRaises(job, parse)
    ensures r.Ok? ==>
      && |r.value| == 9
      && r.value[0] == show.showTime(job.creationTime)
      && r.value[1] == job.id
      && r.value[2] == job.target
      && r.value[3] == StatusName(job.status)
  {
    var c := job.creationTime;
    var head := [show.showTime(c), job.id, job.target, StatusName(job.status)];
    match job.status
    case Succeeded =>
      if job.beginExecutionTime.None? || job.endExecutionTime.None? then Err(TypeError)
      else
        var b := job.beginExecutionTime.value;
        var e := job.endExecutionTime.value;
        var cost :- CostCell(job.results);
        Ok(head + [show.showSeconds(e - c), show.showSeconds(b - c), show.showSeconds(e - b), cost, Null])
    case Failed =>
      var times :=
        if job.beginExecutionTime.Some? && job.endExecutionTime.Some? then
          var b := job.beginExecutionTime.value;
          var e := job.endExecutionTime.value;
          [show.showSeconds(e - c), show.showSeconds(b - c), show.showSeconds(e - b)]
        else [Null, Null, Null];
      var message :- ErrorMessageCell(job.errorText, parse);
      Ok(head + times + [Null, message])
    case Cancelled =>
      if job.cancellationTime.None? then Err(TypeError)
      else
        var x := job.cancellationTime.value;
        var times :=
          if job.beginExecutionTime.Some? then
            var b := job.beginExecutionTime.value;
            [show.showSeconds(x - c), show.showSeconds(b - c), show.showSeconds(x - b)]
          else [show.showSeconds(x - c), Null, Null];
        Ok(head + times + [Null, Null])
    case Executing =>
      if job.beginExecutionTime.None? then Err(TypeError)
      else Ok(head + [Null, show.showSeconds(job.beginExecutionTime.value - c), Null, Null, Null])
    case _ => Ok(head + [Null, Null, Null, Null, Null])
  }

  /** What columns total_time, queue_time, execution_time, cost and
      error_message hold, status by status, and which of them are "null". */
  lemma NullColumnsByStatus(job: JobInfo, parse: JsonParser, show: Renderer)
    requires JobCells(job, parse, show).Ok?
    ensures var cells := JobCells(job, parse, show).value;
      match job.status
      case Succeeded =>
        var b := job.beginExecutionTime.value;
        var e := job.endExecutionTime.value;
        && cells[4..7] == [show.showSeconds(e - job.creationTime), show.showSeconds(b - job.creationTime),
                           show.showSeconds(e - b)]
        && cells[7] == CostCell(job.results).value
        && cells[8] == Null
      case Failed =>
        && cells[7] == Null
        && cells[8] == ErrorMessageCell(job.errorText, parse).value
        && (if job.beginExecutionTime.Some? && job.endExecutionTime.Some? then
              var b := job.beginExecutionTime.value;
              var e := job.endExecutionTime.value;
              cells[4..7] == [show.showSeconds(e - job.creationTime), show.showSeconds(b - job.creationTime),
                              show.showSeconds(e - b)]
            else cells[4..7] == [Null, Null, Null])
      case Cancelled =>
        && cells[7] == Null && cells[8] == Null
        && cells[4] == show.showSeconds(job.cancellationTime.value - job.creationTime)
        && (if job.beginExecutionTime.Some? then
              && cells[5] == show.showSeconds(job.beginExecutionTime.value - job.creationTime)
              && cells[6] == show.showSeconds(job.cancellationTime.value - job.beginExecutionTime.value)
            else cells[5] == Null && cells[6] == Null)
      case Executing =>
        && cells[4] == Null && cells[6] == Null && cells[7] == Null && cells[8] == Null
        && cells[5] == show.showSeconds(job.beginExecutionTime.value - job.creationTime)
      case _ => cells[4..] == [Null, Null, Null, Null, Null]
  {
    var c := job.creationTime;
    var head := [show.showTime(c), job.id, job.target, StatusName(job.status)];
    var b := job.beginExecutionTime;
    var e := job.endExecutionTime;
    match job.status
    case Succeeded =>
      var tail := [show.showSeconds(e.value - c), show.showSeconds(b.value - c), show.showSeconds(e.value - b.value),
                   CostCell(job.results).value, Null];
      assert JobCells(job, parse, show).value == head + tail;
    case Failed =>
      var times := if b.Some? && e.Some? then
          [show.showSeconds(e.value - c), show.showSeconds(b.value - c), show.showSeconds(e.value - b.value)]
        else [Null, Null, Null];
      assert JobCells(job, parse, show).value == head + times + [Null, ErrorMessageCell(job.errorText, parse).value];
    case Cancelled =>
      var x := job.cancellationTime.value;
      var times := if b.Some? then [show.showSeconds(x - c), show.showSeconds(b.value - c), show.showSeconds(x - b.value)]
        else [show.showSeconds(x - c), Null, Null];
      assert JobCells(job, parse, show).value == head + times + [Null, Null];
    case Executing =>
      assert JobCells(job, parse, show).value == head + [Null, show.showSeconds(b.value - c), Null, Null, Null];
    case _ =>
      assert JobCells(job, parse, show).value == head + [Null, Null, Null, Null, Null];
  }

  /** One job's line: a newline, then the nine columns separated by ", ".
      A job whose rendering raises contributes nothing. */
  function JobLine(job: JobInfo, parse: JsonParser, show: Renderer): (r: string)
    ensures r == "" <==> LineRaises(job, parse)
    ensures !LineRaises(job, parse) ==> r == "\n" + Text.Join(JobCells(job, parse, show).value, ", ")
  {
    match JobCells(job, parse, show)
    case Ok(cells) => "\n" + Text.Join(cells, ", ")
    case Err(_) => ""
  }

  /** The text one id contributes: nothing when its lookup fails. */
  function IdLine(id: JobId, workspace: Workspace, parse: JsonParser, show: Renderer): string
  {
    match workspace(id)
    case None => ""
    case Some(job) => JobLine(job, parse, show)
  }

  /** The text the ids contribute, each rendered by `line`, in order. */
  function Lines(ids: seq<JobId>, line: JobId -> string): string
  {
    if |ids| == 0 then "" else Lines(ids[..|ids| - 1], line) + line(ids[|ids| - 1])
  }

  /** The line function of one workspace, parser and renderer. */
  function LineOf(workspace: Workspace, parse: JsonParser, show: Renderer): JobId -> string
  {
    id => IdLine(id, workspace, parse, show)
  }

  /** Rendering a concatenation of id lists is rendering each part in turn. */
  lemma {:induction false} LinesAppend(a: seq<JobId>, b: seq<JobId>, line: JobId -> string)
    ensures Lines(a + b, line) == Lines(a, line) + Lines(b, line)
    decreases |b|
  {
    if |b| == 0 {
      assert a + b == a;
    } else {
      var b' := b[..|b| - 1];
      assert (a + b)[..|a + b| - 1] == a + b';
      assert (a + b)[|a + b| - 1] == b[|b| - 1];
      LinesAppend(a, b', line);
    }
  }

  /** Ids whose lookup fails leave the summary at its header. */
  lemma {:induction false} UnknownIdsRenderNothing(ids: seq<JobId>, workspace: Workspace, parse: JsonParser, show: Renderer)
    requires forall k :: 0 <= k < |ids| ==> workspace(ids[k]).None?
    ensures Lines(ids, LineOf(workspace, parse, show)) == ""
  {
    if |ids| > 0 {
      UnknownIdsRenderNothing(ids[..|ids| - 1], workspace, parse, show);
    }
  }

  /** `get_experiment_details_as_string`: the header, then each tracked id's
      line in `job_id_list` order. */
  method ExperimentDetailsAsString(jobIds: seq<JobId>, workspace: Workspace, parse: JsonParser, show: Renderer)
    returns (results: string)
    ensures Header <= results
    ensures results == Header + Lines(jobIds, LineOf(workspace, parse, show))
  {
    var render := LineOf(workspace, parse, show);
    results := Header;
    for k := 0 to |jobIds|
      invariant results == Header + Lines(jobIds[..k], render)
    {
      assert jobIds[..k + 1][..k] == jobIds[..k];
      assert Lines(jobIds[..k + 1], render) == Lines(jobIds[..k], render) + render(jobIds[k]);
      var line := "";
      match workspace(jobIds[k]) {
        case None =>
        case Some(job) =>
          line := JobLine(job, parse, show);
      }
      assert line == render(jobIds[k]);
      Text.ConcatAssoc(Header, Lines(jobIds[..k], render), line);
      results := results + line;
    }
    assert jobIds[..|jobIds|] == jobIds;
  }

  /** The summary of a single Waiting job is the header and one line with
      "null" in every computed column. */
  lemma WaitingJobLine(id: JobId, job: JobInfo, workspace: Workspace, parse: JsonParser, show: Renderer)
    requires workspace(id) == Some(job) && job.status == Waiting
    ensures Header + Lines([id], LineOf(workspace, parse, show))
         == Header + "\n" + Text.Join([show.showTime(job.creationTime), job.id, job.target, "Waiting",
                                       Null, Null, Null, Null, Null], ", ")
  {
    assert [id][..0] == [];
    var cells := [show.showTime(job.creationTime), job.id, job.target, "Waiting", Null, Null, Null, Null, Null];
    var head := [show.showTime(job.creationTime), job.id, job.target, StatusName(job.status)];
    assert JobCells(job, parse, show) == Ok(head + [Null, Null, Null, Null, Null]);
    assert head + [Null, Null, Null, Null, Null] == cells;
    assert Lines([id], LineOf(workspace, parse, show)) == IdLine(id, workspace, parse, show);
  }
}
