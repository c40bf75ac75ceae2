/** The Python console's bookkeeping around one run: what a run resets,
    what captured output adds, and how a failure is classified. Loading
    the interpreter and running code are foreign calls; their outcomes
    (output lines, an optional plot, an error message) are inputs here. */
module Runner {
  import opened Wrappers
  import opened Text

  /** The console state: log lines, the plot image, whether a run is in
      progress, the status line, and whether the interpreter has crashed. */
  datatype Console = Console(
    logs: seq<string>,
    plot: Option<string>,
    loading: bool,
    status: string,
    fatal: bool)

  /** The text by which the interpreter reports that it cannot recover. */
  const FatalMarker: string := "fatally failed"

  const StartStatus: string := "正在初始化环境..."
  const DoneStatus: string := "执行完成 ✅"
  const CrashStatus: string := "❌ 运行环境已崩溃"
  const ErrorStatus: string := "执行出错 ❌"
  const CrashNotice: string := "Critical Error: Python 虚拟机已崩溃，请刷新页面重试。"
  const PlotPrefix: string := "data:image/png;base64,"

  /** A run starts from a clean console. */
  function BeginRun(c: Console): (r: Console)
    ensures r.logs == [] && r.plot.None? && r.loading && !r.fatal && r.status == StartStatus
  {
    Console([], None, true, StartStatus, false)
  }

  /** A batch of the program's standard output becomes one more log line. */
  function AppendOutput(c: Console, line: string): (r: Console)
    ensures r.logs == c.logs + [line]
    ensures r.plot == c.plot && r.loading == c.loading && r.status == c.status && r.fatal == c.fatal
  {
    c.(logs := c.logs + [line])
  }

  /** The output batches of a run, in order. */
  function AppendOutputs(c: Console, lines: seq<string>): Console
    decreases |lines|
  {
    if lines == [] then c else AppendOutputs(AppendOutput(c, lines[0]), lines[1..])
  }

  /** A run that completes: the plot is shown when the program drew one,
      the status reports completion, and the run is over. */
  function FinishRun(c: Console, plotBase64: Option<string>): (r: Console)
    ensures !r.loading && r.status == DoneStatus && r.logs == c.logs && r.fatal == c.fatal
    ensures plotBase64.Some? ==> r.plot == Some(PlotPrefix + plotBase64.value)
    ensures plotBase64.None? ==> r.plot == c.plot
  {
    c.(plot := if plotBase64.Some? then Some(PlotPrefix + plotBase64.value) else c.plot,
       status := DoneStatus, loading := false)
  }

  /** A run that throws: the interpreter is marked crashed when the message
      contains the fatal marker, and otherwise the flag is left as it was
      (a run's start clears it); a crash adds the crash notice to
      the log and any other failure adds the message after "Error: "; the
      run is over either way and nothing else changes. */
  function FailRun(c: Console, errorMessage: string): (r: Console)
    ensures r.fatal <==> c.fatal || exists i :: OccursAt(errorMessage, FatalMarker, i)
    ensures (exists i :: OccursAt(errorMessage, FatalMarker, i)) ==>
      r.logs == c.logs + [CrashNotice] && r.status == CrashStatus
    ensures !(exists i :: OccursAt(errorMessage, FatalMarker, i)) ==> r.logs == c.logs + ["Error: " + errorMessage] && r.status == ErrorStatus
    ensures !r.loading && r.plot == c.plot
  {
    if Includes(errorMessage, FatalMarker) then
      c.(fatal := true, status := CrashStatus, logs := c.logs + [CrashNotice], loading := false)
    else
      c.(status := ErrorStatus, logs := c.logs + ["Error: " + errorMessage], loading := false)
  }

  /** Output batches are logged in order after what was there. */
  lemma {:induction false} OutputsLogged(c: Console, lines: seq<string>)
    ensures AppendOutputs(c, lines).logs == c.logs + lines
    ensures AppendOutputs(c, lines).fatal == c.fatal && AppendOutputs(c, lines).plot == c.plot
    ensures AppendOutputs(c, lines).loading == c.loading
    decreases |lines|
  {
    if lines != [] {
      OutputsLogged(AppendOutput(c, lines[0]), lines[1..]);
      assert (c.logs + [lines[0]]) + lines[1..] == c.logs + lines;
    }
  }

  /** A failed run's log is exactly the output it printed followed by one
      line about the failure, and it is marked crashed exactly when the
      message carries the fatal marker; an earlier crash does not carry
      over into a new run. */
  lemma FailedRunLog(c: Console, lines: seq<string>, errorMessage: string)
    ensures
      var r := FailRun(AppendOutputs(BeginRun(c), lines), errorMessage);
      && r.logs == lines + [if Includes(errorMessage, FatalMarker) then CrashNotice
                            else "Error: " + errorMessage]
      && (r.fatal <==> Includes(errorMessage, FatalMarker))
      && !r.loading && r.plot.None?
  {
    OutputsLogged(BeginRun(c), lines);
  }

  /** A completed run's log is exactly the output it printed, the plot is
      the one it drew (none otherwise), and it is neither crashed nor
      loading: an earlier crash or plot does not carry over. */
  lemma FinishedRunLog(c: Console, lines: seq<string>, plotBase64: Option<string>)
    ensures
      var r := FinishRun(AppendOutputs(BeginRun(c), lines), plotBase64);
      && r.logs == lines
      && r.plot == (if plotBase64.Some? then Some(PlotPrefix + plotBase64.value) else None)
      && !r.fatal && !r.loading && r.status == DoneStatus
  {
    OutputsLogged(BeginRun(c), lines);
  }
}
