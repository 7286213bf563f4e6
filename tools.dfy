/**
 * lang_graph/chat_bot/multi_agent/tools.py: the tools of the multi-agent
 * graph. `python_repl` runs code in a sandbox and reports the outcome as
 * text, never as an exception; `export_to_excel` accepts a list or a data
 * frame and reports every failure on the console instead of raising.
 */
module AgentTools {
  import opened Common
  import AgentsUtil

  // ---------------------------------------------------------------------
  // python_repl

  /** What the sandbox's `run` did: returned its output, or raised. */
  datatype ReplOutcome = Completed(stdout: string) | Raised(errorRepr: string)

  const FailurePrefix: string := "Failed to execute. Error: "
  const SuccessHeader: string := "Successfully executed:\n```python\n"
  const StdoutLabel: string := "\n```\nStdout: "
  const Closing: string := "\n\nIf you have completed all tasks, respond with FINAL JOB"

  /**
   * The text `python_repl(code)` returns. On failure it is the failure
   * prefix followed by the error's repr; on success the code sits verbatim
   * after the header, the output after the "Stdout: " label, and the text
   * ends with the line asking for "FINAL JOB".
   */
  function PythonRepl(code: string, outcome: ReplOutcome): (r: string)
    ensures outcome.Raised? ==>
      |r| == |FailurePrefix| + |outcome.errorRepr| &&
      r[..|FailurePrefix|] == FailurePrefix && r[|FailurePrefix|..] == outcome.errorRepr
    ensures outcome.Completed? ==>
      var c, o := |SuccessHeader|, |SuccessHeader| + |code| + |StdoutLabel|;
      && |r| == o + |outcome.stdout| + |Closing|
      && r[..c] == SuccessHeader
      && r[c..c + |code|] == code
      && r[c + |code|..o] == StdoutLabel
      && r[o..o + |outcome.stdout|] == outcome.stdout
      && r[|r| - |Closing|..] == Closing
  {
    match outcome
    case Raised(e) => FailurePrefix + e
    case Completed(out) => SuccessHeader + code + StdoutLabel + out + Closing
  }

  /** Reads the error's repr back from a failure report. */
  function ErrorOf(report: string): string
  {
    if |report| < |FailurePrefix| then "" else report[|FailurePrefix|..]
  }

  /** Reads the output back from a success report, given the code that ran. */
  function StdoutOf(report: string, code: string): string
  {
    var o := |SuccessHeader| + |code| + |StdoutLabel|;
    if |report| < o + |Closing| then "" else report[o..|report| - |Closing|]
  }

  /** Nothing of the outcome is lost: the report gives back the repr or the output. */
  lemma PythonReplRoundTrip(code: string, outcome: ReplOutcome)
    ensures outcome.Raised? ==> ErrorOf(PythonRepl(code, outcome)) == outcome.errorRepr
    ensures outcome.Completed? ==> StdoutOf(PythonRepl(code, outcome), code) == outcome.stdout
  {
  }

  /** A success report and a failure report are never the same text. */
  lemma SuccessAndFailureDiffer(code: string, stdout: string, code2: string, errorRepr: string)
    ensures PythonRepl(code, Completed(stdout)) != PythonRepl(code2, Raised(errorRepr))
  {
    var s, f := PythonRepl(code, Completed(stdout)), PythonRepl(code2, Raised(errorRepr));
    assert s[0] == SuccessHeader[0] && f[0] == FailurePrefix[0];
  }

  /** A success report contains "FINAL JOB", at its very end. */
  lemma SuccessEndsWithFinalJob(code: string, stdout: string)
    ensures var r := PythonRepl(code, Completed(stdout));
      |r| >= 9 && r[|r| - 9..] == AgentsUtil.FinalJob && Contains(r, AgentsUtil.FinalJob)
  {
    var r := PythonRepl(code, Completed(stdout));
    assert r[|r| - 9..] == Closing[|Closing| - 9..];
    assert OccursAt(r, AgentsUtil.FinalJob, |r| - 9);
  }

  /**
   * An agent that repeats a success report as its answer, without tool
   * calls, ends the multi-agent run: the report itself carries the
   * "FINAL JOB" sentinel the router looks for.
   */
  lemma EchoedSuccessEndsRun(history: seq<Message>, code: string, stdout: string)
    ensures AgentsUtil.Router(history + [AiMessage(PythonRepl(code, Completed(stdout)))])
      == Ok(AgentsUtil.Finish)
  {
    SuccessEndsWithFinalJob(code, stdout);
    var ms := history + [AiMessage(PythonRepl(code, Completed(stdout)))];
    assert Last(ms) == AiMessage(PythonRepl(code, Completed(stdout)));
  }

  // ---------------------------------------------------------------------
  // export_to_excel

  datatype Cell = Text(text: string) | Number(value: int)

  type Table = seq<seq<Cell>>

  /** The argument's runtime type: a list, a data frame, or anything else. */
  datatype ExcelData = ListData(rows: Table) | FrameData(frame: Table) | OtherData(typeName: string)

  /** What happened, as printed on the console: the file written, or the failure. */
  datatype ExportReport = Exported(path: string, sheet: string, rows: Table) | ExportFailed(reason: string)

  const DefaultPath: string := "agent_excel.xlsx"
  const DefaultSheet: string := "Sheet1"
  const UnsupportedText: string := "数据格式不支持，仅支持列表或 DataFrame 格式！"

  /**
   * `export_to_excel(data, file_path, sheet_name)`; `writeError` is what
   * writing the workbook raised, if anything. A list is wrapped in a data
   * frame, a data frame is used as it is, anything else raises a
   * `ValueError` that is caught; every failure is reported, none escapes.
   */
  function ExportToExcel(data: ExcelData, filePath: string, sheetName: string,
                         writeError: Option<string>): (r: ExportReport)
    ensures r.Exported? <==> !data.OtherData? && writeError.None?
    ensures r.Exported? ==> r.path == filePath && r.sheet == sheetName
    ensures r.Exported? && data.ListData? ==> r.rows == data.rows
    ensures r.Exported? && data.FrameData? ==> r.rows == data.frame
    ensures data.OtherData? ==> r == ExportFailed(UnsupportedText)
    ensures !data.OtherData? && writeError.Some? ==> r == ExportFailed(writeError.value)
  {
    var frame :=
      match data
      case ListData(rows) => Ok(rows)
      case FrameData(f) => Ok(f)
      case OtherData(_) => Err(ValueError(UnsupportedText));
    match frame
    case Err(e) => ExportFailed(e.text)
    case Ok(rows) =>
      match writeError
      case Some(msg) => ExportFailed(msg)
      case None => Exported(filePath, sheetName, rows)
  }

  const ExportedLine: string := "数据成功导出到 Excel 文件: "
  const FailedLine: string := "导出 Excel 文件失败: "

  /**
   * The line printed for a report: the success line names the file, the
   * failure line the reason; the two are told apart by their first words.
   */
  function ReportLine(report: ExportReport): (r: string)
    ensures report.Exported? <==> |ExportedLine| <= |r| && r[..|ExportedLine|] == ExportedLine
    ensures report.Exported? ==> r[|ExportedLine|..] == report.path
    ensures report.ExportFailed? ==>
      |FailedLine| <= |r| && r[..|FailedLine|] == FailedLine && r[|FailedLine|..] == report.reason
  {
    match report
    case Exported(path, _, _) => ExportedLine + path
    case ExportFailed(reason) =>
      assert (FailedLine + reason)[0] != ExportedLine[0];
      FailedLine + reason
  }

  /**
   * `excel_tool(data)`: exports with the default file "agent_excel.xlsx"
   * and sheet "Sheet1". The report is what the console shows; the tool
   * itself returns `None`, so the tool message the agent receives carries
   * neither the outcome nor the reason of a failure.
   */
  function ExcelTool(data: ExcelData, writeError: Option<string>): (r: ExportReport)
    ensures r.Exported? ==> r.path == "agent_excel.xlsx" && r.sheet == "Sheet1"
    ensures r.Exported? <==> !data.OtherData? && writeError.None?
  {
    ExportToExcel(data, DefaultPath, DefaultSheet, writeError)
  }
}
