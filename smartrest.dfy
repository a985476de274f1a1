/**
 * Outbound SmartREST messages of the software-update module, and the
 * exceptions that reach its top-level handler.
 */
module SmartRest {
  import opened Text

  /** One published SmartREST message on topic `s/us`: a template id and its positional fields. */
  datatype Message = Message(templateId: string, fields: seq<string>)

  const UpdateOp := "c8y_SoftwareUpdate"
  const ListOp := "c8y_SoftwareList"

  /** Separator between the collected errors of a failed batch. */
  const ErrorSeparator := " - "

  /** 501: the operation is executing. */
  function Executing(op: string): (m: Message) {
    Message("501", [op])
  }

  /** 502: the operation failed with the given text. */
  function Failed(op: string, text: string): (m: Message) {
    Message("502", [op, text])
  }

  /** 503: the operation succeeded. */
  function Succeeded(op: string): (m: Message) {
    Message("503", [op])
  }

  /**
   * The final message of a batch: success when no error was collected,
   * otherwise a failure carrying all errors joined by " - ".
   */
  function Verdict(op: string, errors: seq<string>): (m: Message)
    ensures m.templateId == "503" <==> errors == []
    ensures m.templateId == "502" <==> errors != []
    ensures |m.fields| >= 1 && m.fields[0] == op
    ensures errors != [] ==> |m.fields| == 2 && m.fields[1] == Join(errors, ErrorSeparator)
    ensures errors == [] ==> |m.fields| == 1
  {
    if |errors| == 0 then Succeeded(op) else Failed(op, Join(errors, ErrorSeparator))
  }

  /** The failure text of a single error is that error. */
  lemma {:induction false} VerdictSingleError(op: string, e: string)
    ensures Verdict(op, [e]) == Failed(op, e)
  {
  }

  /** The Python exceptions that the handler of an operation can raise. */
  datatype Fault =
    | IndexOutOfRange       // indexing past the end of a list
    | NoneNotSubscriptable  // the snapd client swallowed a transport error and returned None
    | StrNotCallable        // `type(...)` after `type` was rebound to a string
    | UnboundType           // `type(...)` while the local `type` was never assigned
    | InstallSnapArity      // `installSnap` called with two arguments
    | UnboundErrors         // `len(errors)` while the local `errors` was never assigned

  /** `str(e)` for each fault, in CPython 3.10 wording. */
  function FaultText(f: Fault): (text: string) {
    match f
    case IndexOutOfRange => "list index out of range"
    case NoneNotSubscriptable => "'NoneType' object is not subscriptable"
    case StrNotCallable => "'str' object is not callable"
    case UnboundType => "local variable 'type' referenced before assignment"
    case InstallSnapArity => "SoftwareManager.installSnap() takes 2 positional arguments but 3 were given"
    case UnboundErrors => "local variable 'errors' referenced before assignment"
  }

  /**
   * What the top-level exception handler publishes: a failure of the list
   * operation followed by a failure of the update operation, both with the
   * exception text.
   */
  function FailurePair(f: Fault): (ms: seq<Message>) {
    [Failed(ListOp, FaultText(f)), Failed(UpdateOp, FaultText(f))]
  }
}
