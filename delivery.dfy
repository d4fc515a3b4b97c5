/**
 * What the two input readers share: the console lines they print, the
 * logger calls they make, and the delivery of one message
 * (FlatFileReader.pushMessage and FlatFileReaderTail.onTailLineEvent are
 * the same code). Delivery is echo-if-asked, then send-if-asked, with a
 * "fail once, then silently" latch around the logger call.
 */
module Delivery {
  import opened JsValues

  /** A logger function, told apart from others by an identifier. */
  type LoggerId = nat

  /** What is passed as `loggerFunction`: something falsy, a truthy non-function, or a function. */
  datatype LoggerArg = Falsy | NotAFunction | Function(id: LoggerId)

  /** One call `loggerFunction(data, deviceType, filterHelpers)`. */
  datatype Invocation = Invocation(logger: LoggerId, data: Json, deviceType: Option<string>, filterHelpers: Option<Json>)

  /**
   * The messages the readers print. Each stands for a fixed text (Text);
   * Thrown is an error raised by code outside the readers, printed as it is.
   */
  datatype Message =
    | InvalidLogger
    | SendFailed
    | BaseDirectoryMissing
    | InclusionFilterMissing(filter: Option<string>)
    | PathMissing
    | StillCrawling
    | StartCrawling
    | StillPruning
    | StartPruning
    | Thrown(error: string)

  /** The text of a message. */
  function Text(m: Message): string {
    match m
    case InvalidLogger => "loggerFunction must be a valid function."
    case SendFailed => "Failed to send line to Open Collector via Lumberjack."
    case BaseDirectoryMissing => "baseDirectoryPath must be a non empty string."
    case InclusionFilterMissing(filter) => "inclusionFilter must be a non empty string." + TextOf(filter)
    case PathMissing => "path must be a non empty string."
    case StillCrawling => "\U{1F994} - Still Crawling. Doing nothing."
    case StartCrawling => "\U{1F994} - Start Crawling!"
    case StillPruning => "\U{1F333} - Still Pruning State. Doing nothing."
    case StartPruning => "\U{1F333} - Start Pruning State!"
    case Thrown(error) => error
  }

  /** What the readers print. */
  datatype ConsoleLine =
    | Echo(data: Json)            // console.log(data)
    | Log(message: Message)       // console.log(text)
    | ErrorOut(message: Message)  // console.error(error)
    | ErrorLog(message: Message)  // console.log('ERROR: ', error)

  /** What use prints: nothing for a function, an error for anything else. */
  function UseLines(logger: LoggerArg): seq<ConsoleLine> {
    if logger.Function? then [] else [ErrorOut(InvalidLogger)]
  }

  /** The logger use keeps: the new one when it is a function, else the old one. */
  function UsedLogger(logger: LoggerArg, current: Option<LoggerId>): Option<LoggerId> {
    if logger.Function? then Some(logger.id) else current
  }

  /** What delivering one message did, and the latch afterwards. */
  datatype Outcome = Outcome(echoed: bool, invoked: bool, failed: bool, reported: bool, latch: bool)

  /**
   * One message. The logger is called when sending is on and a logger is
   * set; the call fails when the logger throws or there is no logger to
   * call (a TypeError). A failure is reported only while the latch is
   * still down, and it raises the latch.
   */
  function Push(printToConsole: Option<bool>, sendToOpenCollector: Option<bool>, loggerSet: bool, loggerThrows: bool,
                latch: bool): Outcome
  {
    var send := sendToOpenCollector == Some(true);
    var failed := send && (!loggerSet || loggerThrows);
    Outcome(printToConsole == Some(true), send && loggerSet, failed, failed && !latch, latch || failed)
  }

  /** What the console gets from one message: the echo, then the report. */
  function PushLines(data: Json, o: Outcome): seq<ConsoleLine> {
    (if o.echoed then [Echo(data)] else []) + (if o.reported then [ErrorLog(SendFailed)] else [])
  }

  /** The logger call one message makes, if any. */
  function Calls(data: Json, loggerFunction: Option<LoggerId>, deviceType: Option<string>, filterHelpers: Option<Json>,
                 o: Outcome): seq<Invocation>
  {
    if o.invoked && loggerFunction.Some? then [Invocation(loggerFunction.value, data, deviceType, filterHelpers)] else []
  }

  /** How many failure reports a console holds. */
  function Reports(lines: seq<ConsoleLine>): nat {
    multiset(lines)[ErrorLog(SendFailed)]
  }

  /**
   * The delivery code both readers share: echo the message when
   * printToConsole is true; when sendToOpenCollector is true, call the
   * logger (with no logger the call itself throws), and on a failure while
   * the latch is down, raise it and report. Returns the lines printed, the
   * logger calls made and the new latch.
   */
  method Deliver(data: Json, printToConsole: Option<bool>, sendToOpenCollector: Option<bool>,
                 loggerFunction: Option<LoggerId>, deviceType: Option<string>, filterHelpers: Option<Json>,
                 loggerThrows: bool, hasFailedToUseLogger: bool)
    returns (lines: seq<ConsoleLine>, sent: seq<Invocation>, latch: bool)
    ensures var o := Push(printToConsole, sendToOpenCollector, loggerFunction.Some?, loggerThrows, hasFailedToUseLogger);
            && lines == PushLines(data, o)
            && sent == Calls(data, loggerFunction, deviceType, filterHelpers, o)
            && latch == o.latch
  {
    var echo: seq<ConsoleLine> := [];
    var report: seq<ConsoleLine> := [];
    sent := [];
    latch := hasFailedToUseLogger;
    if printToConsole == Some(true) {
      echo := [Echo(data)];
    }
    if sendToOpenCollector == Some(true) {
      var threw := true;
      if loggerFunction.Some? {
        sent := [Invocation(loggerFunction.value, data, deviceType, filterHelpers)];
        threw := loggerThrows;
      }
      if threw && !latch {
        latch := true;
        report := [ErrorLog(SendFailed)];
      }
    }
    lines := echo + report;
  }

  /** Totals over a run of messages. */
  datatype Tally = Tally(echoes: nat, invocations: nat, reports: nat, latch: bool)

  /**
   * Delivering a run of messages with fixed settings, one after the other;
   * `throws[i]` says whether the logger throws on the i-th message.
   */
  function Run(printToConsole: Option<bool>, sendToOpenCollector: Option<bool>, loggerSet: bool, throws: seq<bool>,
               latch: bool): Tally
    decreases |throws|
  {
    if throws == [] then Tally(0, 0, 0, latch)
    else
      var before := Run(printToConsole, sendToOpenCollector, loggerSet, throws[..|throws| - 1], latch);
      var o := Push(printToConsole, sendToOpenCollector, loggerSet, throws[|throws| - 1], before.latch);
      Tally(before.echoes + (if o.echoed then 1 else 0),
            before.invocations + (if o.invoked then 1 else 0),
            before.reports + (if o.reported then 1 else 0),
            o.latch)
  }

  /** The logger throws on some message of the run. */
  predicate AnyThrow(throws: seq<bool>) {
    exists i :: 0 <= i < |throws| && throws[i]
  }

  lemma AnyThrowLast(throws: seq<bool>)
    requires throws != []
    ensures AnyThrow(throws) <==> AnyThrow(throws[..|throws| - 1]) || throws[|throws| - 1]
  {
    var prefix := throws[..|throws| - 1];
    if AnyThrow(prefix) {
      var i :| 0 <= i < |prefix| && prefix[i];
      assert throws[i];
    }
    if AnyThrow(throws) && !throws[|throws| - 1] {
      var i :| 0 <= i < |throws| && throws[i];
      assert prefix[i];
    }
  }

  /** Some message of the run fails. */
  predicate SomeFailure(sendToOpenCollector: Option<bool>, loggerSet: bool, throws: seq<bool>) {
    sendToOpenCollector == Some(true) && |throws| > 0 && (!loggerSet || AnyThrow(throws))
  }

  /**
   * The latch: it ends up raised exactly when it started raised or some
   * message failed, and at most one failure is ever reported, none when
   * the latch started raised.
   */
  lemma {:induction false} RunReportsOnce(printToConsole: Option<bool>, sendToOpenCollector: Option<bool>, loggerSet: bool,
                                          throws: seq<bool>, latch: bool)
    ensures var t := Run(printToConsole, sendToOpenCollector, loggerSet, throws, latch);
            && (t.latch <==> latch || SomeFailure(sendToOpenCollector, loggerSet, throws))
            && t.reports == (if !latch && SomeFailure(sendToOpenCollector, loggerSet, throws) then 1 else 0)
    decreases |throws|
  {
    if throws != [] {
      RunReportsOnce(printToConsole, sendToOpenCollector, loggerSet, throws[..|throws| - 1], latch);
      AnyThrowLast(throws);
    }
  }

  /** The latch only silences reports: every message is still handed to the logger. */
  lemma {:induction false} RunKeepsSending(printToConsole: Option<bool>, sendToOpenCollector: Option<bool>, loggerSet: bool,
                                           throws: seq<bool>, latch: bool)
    ensures Run(printToConsole, sendToOpenCollector, loggerSet, throws, latch).invocations
            == if sendToOpenCollector == Some(true) && loggerSet then |throws| else 0
    ensures Run(printToConsole, sendToOpenCollector, loggerSet, throws, latch).echoes
            == if printToConsole == Some(true) then |throws| else 0
    decreases |throws|
  {
    if throws != [] {
      RunKeepsSending(printToConsole, sendToOpenCollector, loggerSet, throws[..|throws| - 1], latch);
    }
  }
}
