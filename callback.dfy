/** The callback handler and the wait for its first signal. The HTTP server,
    the goroutine and the channels are replaced by `WaitEvent`: the first of the
    three racing signal sources, as the `select` would observe it. */
module Callback {

  /** The first thing the waiting `select` receives: a request on the callback
      path carrying the given `code` query value, a failure of the listener
      itself, or the five-minute timer. */
  datatype WaitEvent = Request(code: string) | ServeFailed(msg: string) | TimedOut

  /** What the `select` ends with. */
  datatype Signal = CodeReceived(code: string) | ReceiverError(msg: string) | Timeout

  /** The plain page the handler writes back to the browser. */
  datatype Page = SuccessPage | NoCodePage

  /** The handler: a request without a `code` signals an error and gets the
      error page; any other request signals its code and gets the success page. */
  function HandleCallback(code: string): (out: (Signal, Page))
    ensures out.0.CodeReceived? <==> code != ""
    ensures out.0.CodeReceived? ==> out.0.code == code && out.1 == SuccessPage
    ensures !out.0.CodeReceived? ==> out.0.ReceiverError? && out.1 == NoCodePage
  {
    if code == "" then (ReceiverError("no authorization code received"), NoCodePage)
    else (CodeReceived(code), SuccessPage)
  }

  /** The outcome of the wait. */
  function Await(w: WaitEvent): (s: Signal)
    ensures s.Timeout? <==> w.TimedOut?
    ensures s.CodeReceived? <==> w.Request? && w.code != ""
    ensures s.CodeReceived? ==> s.code == w.code
  {
    match w
    case Request(code) => HandleCallback(code).0
    case ServeFailed(msg) => ReceiverError(msg)
    case TimedOut => Timeout
  }

  /** The value of `authCode` after the `select`: it is only assigned when a
      code arrives and otherwise keeps its initial empty value. */
  function AuthCode(s: Signal): (code: string)
    ensures code != "" <==> s.CodeReceived? && s.code != ""
    ensures s.CodeReceived? ==> code == s.code
  {
    match s
    case CodeReceived(c) => c
    case ReceiverError(_) => ""
    case Timeout => ""
  }
}
