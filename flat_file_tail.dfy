/**
 * The tailing flat-file reader (src/inputs/flatFileTail.js): it registers
 * a logger, opens a tail on one file once it has a path and a logger, and
 * delivers every line the tail reports to the logger.
 *
 * The tail library is outside the model: opening a tail either succeeds
 * or throws an error with a given message (a parameter), and the lines
 * and errors it emits arrive as calls of OnTailLineEvent and OnTailError.
 */
module FlatFileTail {
  import opened JsValues
  import opened Delivery

  /** The reader's configuration; a missing property is None. */
  datatype TailConfig = TailConfig(
    path: Option<string>,
    autoStart: Option<bool>,
    printToConsole: Option<bool>,
    sendToOpenCollector: Option<bool>,
    deviceType: Option<string>,
    filterHelpers: Option<Json>)

  /** What start prints: nothing when the tail opens, else the error it met. */
  function StartLines(cfg: TailConfig, loggerFunction: Option<LoggerId>, tailError: Option<string>): seq<ConsoleLine> {
    if !NonEmpty(cfg.path) then [ErrorOut(PathMissing)]
    else if loggerFunction.None? then [ErrorOut(InvalidLogger)]
    else if tailError.Some? then [ErrorOut(Thrown(tailError.value))]
    else []
  }

  class FlatFileReaderTail {
    /** The configuration, copied once by the constructor. */
    const config: TailConfig
    var hasFailedToUseLogger: bool
    var loggerFunction: Option<LoggerId>
    /** The file the open tail follows, if a tail was opened. */
    var tail: Option<string>
    var console: seq<ConsoleLine>
    var invocations: seq<Invocation>

    /** A tail is open only on the configured path and with a logger to feed. */
    ghost predicate Opened()
      reads this`loggerFunction, this`tail
    {
      tail.Some? ==> NonEmpty(config.path) && tail.value == config.path.value && loggerFunction.Some?
    }

    /** The console holds one failure report exactly when the latch is up. */
    ghost predicate ReportedOnce()
      reads this`hasFailedToUseLogger, this`console
    {
      Reports(console) == if hasFailedToUseLogger then 1 else 0
    }

    ghost predicate Valid()
      reads this
    {
      Opened() && ReportedOnce()
    }

    /** new FlatFileReaderTail(config, loggerFunction); `tailError` is what opening the tail throws, if anything. */
    constructor(cfg: TailConfig, logger: LoggerArg, tailError: Option<string>)
      ensures Valid()
      ensures config == cfg && !hasFailedToUseLogger && invocations == []
      ensures loggerFunction == UsedLogger(logger, None)
      ensures var started := cfg.autoStart != Some(false) && NonEmpty(cfg.path) && logger.Function? && tailError.None?;
              tail == if started then cfg.path else None
      ensures console == (if logger.Falsy? then [] else UseLines(logger))
                         + (if cfg.autoStart != Some(false) then StartLines(cfg, loggerFunction, tailError) else [])
    {
      config := cfg;
      hasFailedToUseLogger := false;
      loggerFunction := None;
      tail := None;
      console := [];
      invocations := [];
      new;
      if !logger.Falsy? {
        Use(logger);
      }
      assert console == if logger.Falsy? then [] else UseLines(logger);
      ghost var used := console;
      if cfg.autoStart != Some(false) {
        Start(tailError);
      } else {
        assert console == used + [];
      }
    }

    /** use(loggerFunction): keep it when it is a function, else print an error. */
    method Use(logger: LoggerArg)
      requires Valid()
      modifies this
      ensures unchanged(this`hasFailedToUseLogger, this`tail, this`invocations)
      ensures Valid()
      ensures loggerFunction == UsedLogger(logger, old(loggerFunction))
      ensures console == old(console) + UseLines(logger)
    {
      if logger.Function? {
        loggerFunction := Some(logger.id);
      } else {
        console := console + [ErrorOut(InvalidLogger)];
      }
    }

    /**
     * start(): with a path and a logger, open a tail on the path (an error
     * thrown while opening is printed and leaves the old tail); otherwise
     * print why.
     */
    method Start(tailError: Option<string>)
      requires Valid()
      modifies this
      ensures unchanged(this`hasFailedToUseLogger, this`loggerFunction, this`invocations)
      ensures Valid()
      ensures console == old(console) + StartLines(config, loggerFunction, tailError)
      ensures tail == if NonEmpty(config.path) && loggerFunction.Some? && tailError.None? then config.path else old(tail)
    {
      var lines := StartLines(config, loggerFunction, tailError);
      if NonEmpty(config.path) {
        if loggerFunction.Some? {
          if tailError.Some? {
            console := console + [ErrorOut(Thrown(tailError.value))];
          } else {
            tail := config.path;
          }
        } else {
          console := console + [ErrorOut(InvalidLogger)];
        }
      } else {
        console := console + [ErrorOut(PathMissing)];
      }
    }

    /**
     * onTailLineEvent(data): echo when printToConsole is true; when
     * sendToOpenCollector is true, call the logger, and on the first
     * failure raise the latch and report it.
     */
    method OnTailLineEvent(data: string, loggerThrows: bool)
      requires Valid()
      modifies this
      ensures unchanged(this`loggerFunction, this`tail)
      ensures Valid()
      ensures var o := Push(config.printToConsole, config.sendToOpenCollector, loggerFunction.Some?, loggerThrows,
                            old(hasFailedToUseLogger));
              && hasFailedToUseLogger == o.latch
              && console == old(console) + PushLines(JStr(data), o)
              && invocations == old(invocations) + Calls(JStr(data), loggerFunction, config.deviceType, config.filterHelpers, o)
    {
      var lines, sent, latch := Deliver(JStr(data), config.printToConsole, config.sendToOpenCollector, loggerFunction,
                                        config.deviceType, config.filterHelpers, loggerThrows, hasFailedToUseLogger);
      hasFailedToUseLogger := latch;
      console := console + lines;
      invocations := invocations + sent;
    }

    /** The tail's error handler: print the error it emits. */
    method OnTailError(error: string)
      requires Valid()
      modifies this
      ensures unchanged(this`hasFailedToUseLogger, this`loggerFunction, this`tail, this`invocations)
      ensures Valid()
      ensures console == old(console) + [ErrorLog(Thrown(error))]
    {
      console := console + [ErrorLog(Thrown(error))];
    }
  }
}
