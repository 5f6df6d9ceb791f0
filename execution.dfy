/** The result panel that the editor and the shared-snippet view both drive around one
    request to the execution service. The two components carry identical copies of this logic. */
module Execution {
  import opened Remote

  /** The `data` of a successful execution reply, copied verbatim into the panel. */
  datatype ExecResult = ExecResult(output: Option<string>, hasError: bool, executionTime: int)

  /** The body of `POST /api/execute`; `snippetId` is left out of the JSON when absent. */
  datatype ExecRequest = ExecRequest(code: string, snippetId: Option<int>)

  /** The three pieces of state that show an execution: `output`, `hasError`, `executionTime`
      (None stands for `null`). */
  datatype Panel = Panel(output: string, hasError: bool, executionTime: Option<int>)

  const NoCodeMessage := "Error: No code to execute"
  const RunningMessage := "Executing..."
  const NoOutputMessage := "Code executed successfully (no output)"
  const FailedPrefix := "Execution failed: "
  const ErrorPrefix := "Error: "
  const ExecuteFallback := "Failed to execute code. Please try again."

  /** The panel while a request is in flight. */
  const Running := Panel(RunningMessage, false, None)

  /** The panel after the local check refused code that trims empty; the time is untouched. */
  function Refused(before: Panel): (p: Panel)
    ensures p.hasError && p.output == NoCodeMessage && p.executionTime == before.executionTime
  {
    Panel(NoCodeMessage, true, before.executionTime)
  }

  /** `"Execution failed: " + response.data.message`: a missing message is concatenated
      as the text "undefined". */
  function FailedText(message: Option<string>): string {
    FailedPrefix + (if message.Some? then message.value else "undefined")
  }

  /** The panel once the reply `o` has arrived, from the panel `before` it. */
  function Settled(o: Outcome<ExecResult>, before: Panel): (p: Panel)
    // a success copies the service's error flag and time verbatim
    ensures o.Ok? ==> p.hasError == o.data.hasError && p.executionTime == Some(o.data.executionTime)
    // the service's own output is shown whenever it is non-empty, the placeholder otherwise
    ensures o.Ok? && o.data.output.Some? && o.data.output.value != "" ==> p.output == o.data.output.value
    ensures o.Ok? && (o.data.output.None? || o.data.output.value == "") ==> p.output == NoOutputMessage
    // every failure is flagged as an error and leaves the time as it was
    ensures !o.Ok? ==> p.hasError && p.executionTime == before.executionTime
    // a non-success envelope shows the service's message after the prefix, "undefined" if it has none
    ensures o.NotOk? && o.message.Some? ==> p.output == FailedPrefix + o.message.value
    ensures o.NotOk? && o.message.None? ==> p.output == FailedPrefix + "undefined"
    // a thrown request shows the reply's non-empty message, or else the fallback, after "Error: "
    ensures o.HttpErr? && o.message.Some? && o.message.value != "" ==> p.output == ErrorPrefix + o.message.value
    ensures o.HttpErr? && (o.message.None? || o.message.value == "") ==> p.output == ErrorPrefix + ExecuteFallback
    ensures o.NetErr? ==> p.output == ErrorPrefix + ExecuteFallback
    // the output area is never left empty
    ensures p.output != ""
  {
    match o
    case Ok(r) => Panel(MessageOr(r.output, NoOutputMessage), r.hasError, Some(r.executionTime))
    case NotOk(m) => Panel(FailedText(m), true, before.executionTime)
    case _ => Panel(ErrorPrefix + ThrownMessageOr(o, ExecuteFallback), true, before.executionTime)
  }
}
