/**
 * The flat-file input reader (src/inputs/flatFile.js): a reader object
 * that applies its configuration defaults, registers a logger, schedules
 * a daily state-pruning job and a periodic crawl job once it has what it
 * needs, and delivers messages to the logger. The crawl and prune jobs
 * only guard themselves against overlap and print.
 *
 * Timers are recorded, not run: `timers` lists every interval ever
 * scheduled with its period, and an interval id is a position in it.
 * The console and the logger calls are recorded as sequences.
 */
module FlatFile {
  import opened JsValues
  import opened Delivery

  /** The reader's configuration; a missing property is None. */
  datatype ReaderConfig = ReaderConfig(
    baseDirectoryPath: Option<string>,
    inclusionFilter: Option<string>,
    frequencyInSeconds: Option<int>,
    autoStart: Option<bool>,
    printToConsole: Option<bool>,
    sendToOpenCollector: Option<bool>,
    deviceType: Option<string>,
    filterHelpers: Option<Json>)

  /** The reader's `state` object. */
  datatype ReaderState = ReaderState(
    hasFailedToUseLogger: bool,
    stillCrawling: bool,
    currentCrawlStartedAt: int,
    stillPruningState: bool,
    currentPruningStateStartedAt: int,
    positions: seq<Json>)

  const InitialState := ReaderState(false, false, 0, false, 0, [])

  datatype Job = CrawlJob | PruneJob

  /** One setInterval call: the job and its period in milliseconds. */
  datatype Timer = Timer(job: Job, periodMs: int)

  const DefaultFrequencyInSeconds := 30
  const PruningPeriodMs := 86400000

  /** The crawl frequency after the constructor: a positive value is kept, anything else (missing, 0, negative) becomes 30. */
  function EffectiveFrequency(frequency: Option<int>): (r: int)
    ensures r > 0
    ensures frequency.Some? && frequency.value > 0 ==> r == frequency.value
    ensures frequency.None? || frequency.value <= 0 ==> r == DefaultFrequencyInSeconds
  {
    if frequency.None? || frequency.value <= 0 then DefaultFrequencyInSeconds
    else frequency.value
  }

  /** The constructor's copy of the configuration, with the frequency default applied. */
  function WithDefaults(cfg: ReaderConfig): ReaderConfig {
    cfg.(frequencyInSeconds := Some(EffectiveFrequency(cfg.frequencyInSeconds)))
  }

  /** The three conditions start checks before scheduling anything. */
  predicate CanStart(cfg: ReaderConfig, loggerFunction: Option<LoggerId>) {
    NonEmpty(cfg.baseDirectoryPath) && NonEmpty(cfg.inclusionFilter) && loggerFunction.Some?
  }

  /** The error start prints when a condition fails: the first failing one, in the order checked. */
  function StartError(cfg: ReaderConfig, loggerFunction: Option<LoggerId>): Message
    requires !CanStart(cfg, loggerFunction)
  {
    if !NonEmpty(cfg.baseDirectoryPath) then BaseDirectoryMissing
    else if !NonEmpty(cfg.inclusionFilter) then InclusionFilterMissing(cfg.inclusionFilter)
    else InvalidLogger
  }

  /** What start prints: the first crawl's line, or the error. */
  function StartLines(cfg: ReaderConfig, loggerFunction: Option<LoggerId>): seq<ConsoleLine> {
    if CanStart(cfg, loggerFunction) then [Log(StartCrawling)]
    else [ErrorOut(StartError(cfg, loggerFunction))]
  }

  /** The crawl interval's period: the frequency in milliseconds. */
  function CrawlPeriodMs(cfg: ReaderConfig): int
    requires cfg.frequencyInSeconds.Some?
  {
    cfg.frequencyInSeconds.value * 1000
  }

  /** The two intervals start schedules, prune first. */
  function StartTimers(cfg: ReaderConfig): seq<Timer>
    requires cfg.frequencyInSeconds.Some?
  {
    [Timer(PruneJob, PruningPeriodMs), Timer(CrawlJob, CrawlPeriodMs(cfg))]
  }

  class FlatFileReader {
    /** The configuration, copied once by the constructor. */
    const config: ReaderConfig
    var state: ReaderState
    var loggerFunction: Option<LoggerId>
    var crawlInterval: Option<nat>
    var pruningStateInterval: Option<nat>
    /** `this.stillCrawling`, the flag crawl actually tests (not `state.stillCrawling`). */
    var stillCrawling: bool
    /** `this.stillPruningState`, the flag pruneState actually tests. */
    var stillPruningState: bool
    var timers: seq<Timer>
    var console: seq<ConsoleLine>
    var invocations: seq<Invocation>

    /**
     * Between calls: the frequency is positive, and the interval ids, when
     * set, point at the two jobs start scheduled last, which it scheduled
     * only with everything it needs.
     */
    ghost predicate Scheduled()
      reads this`timers, this`crawlInterval, this`pruningStateInterval, this`loggerFunction
    {
      && config.frequencyInSeconds.Some? && config.frequencyInSeconds.value > 0
      && (crawlInterval.Some? <==> pruningStateInterval.Some?)
      && (crawlInterval.Some? ==>
            && pruningStateInterval.value < |timers| && timers[pruningStateInterval.value] == Timer(PruneJob, PruningPeriodMs)
            && crawlInterval.value < |timers| && timers[crawlInterval.value] == Timer(CrawlJob, CrawlPeriodMs(config))
            && CanStart(config, loggerFunction))
      && (timers == [] <==> crawlInterval.None?)
    }

    /** Between calls: of the state only the latch ever changes, and neither job is marked as running. */
    ghost predicate Idle()
      reads this`state, this`stillCrawling, this`stillPruningState
    {
      && !state.stillCrawling && state.currentCrawlStartedAt == 0
      && !state.stillPruningState && state.currentPruningStateStartedAt == 0
      && state.positions == []
      && !stillCrawling && !stillPruningState
    }

    /** The console holds one failure report exactly when the latch is up. */
    ghost predicate ReportedOnce()
      reads this`state, this`console
    {
      Reports(console) == if state.hasFailedToUseLogger then 1 else 0
    }

    ghost predicate Valid()
      reads this
    {
      Scheduled() && Idle() && ReportedOnce()
    }

    /** new FlatFileReader(config, loggerFunction). */
    constructor(cfg: ReaderConfig, logger: LoggerArg)
      ensures Valid()
      ensures config == WithDefaults(cfg)
      ensures state == InitialState
      ensures loggerFunction == UsedLogger(logger, None)
      ensures !stillCrawling && !stillPruningState
      ensures invocations == []
      ensures var started := cfg.autoStart != Some(false) && CanStart(config, loggerFunction);
              && timers == (if started then StartTimers(config) else [])
              && crawlInterval == (if started then Some(1) else None)
              && pruningStateInterval == (if started then Some(0) else None)
      ensures console == (if logger.Falsy? then [] else UseLines(logger))
                         + (if cfg.autoStart != Some(false) then StartLines(config, loggerFunction) else [])
    {
      config := WithDefaults(cfg);
      state := InitialState;
      loggerFunction := None;
      crawlInterval := None;
      pruningStateInterval := None;
      stillCrawling := false;
      stillPruningState := false;
      timers := [];
      console := [];
      invocations := [];
      new;
      if !logger.Falsy? {
        Use(logger);
      }
      assert console == if logger.Falsy? then [] else UseLines(logger);
      ghost var used := console;
      if cfg.autoStart != Some(false) {
        Start();
      } else {
        assert console == used + [];
      }
    }

    /** use(loggerFunction): keep it when it is a function, else print an error. */
    method Use(logger: LoggerArg)
      requires Valid()
      modifies this
      ensures unchanged(this`state, this`crawlInterval, this`pruningStateInterval, this`stillCrawling, this`stillPruningState, this`timers, this`invocations)
      ensures Valid()
      ensures loggerFunction == UsedLogger(logger, old(loggerFunction))
      ensures console == old(console) + UseLines(logger)
    {
      if logger.Function? {
        loggerFunction := Some(logger.id);
      } else {
        console := console + [ErrorOut(InvalidLogger)];
      }
    }

    /**
     * start(): with a base directory, an inclusion filter and a logger,
     * schedule pruning daily and crawling every `frequencyInSeconds`, then
     * crawl once; otherwise print why and schedule nothing.
     */
    method Start()
      requires Valid()
      modifies this
      ensures unchanged(this`state, this`loggerFunction, this`stillPruningState, this`invocations)
      ensures Valid()
      ensures console == old(console) + StartLines(config, loggerFunction)
      ensures CanStart(config, loggerFunction) ==>
                && timers == old(timers) + StartTimers(config)
                && pruningStateInterval == Some(|old(timers)|)
                && crawlInterval == Some(|old(timers)| + 1)
      ensures !CanStart(config, loggerFunction) ==>
                timers == old(timers) && crawlInterval == old(crawlInterval) && pruningStateInterval == old(pruningStateInterval)
    {
      if NonEmpty(config.baseDirectoryPath) {
        if NonEmpty(config.inclusionFilter) {
          if loggerFunction.Some? {
            ScheduleJobs();
            CrawlTimerFires();
          } else {
            console := console + [ErrorOut(InvalidLogger)];
          }
        } else {
          console := console + [ErrorOut(InclusionFilterMissing(config.inclusionFilter))];
        }
      } else {
        console := console + [ErrorOut(BaseDirectoryMissing)];
      }
    }

    /** The two setInterval calls of start, prune first; the ids are the timers' positions. */
    method ScheduleJobs()
      requires Valid() && CanStart(config, loggerFunction)
      modifies this
      ensures unchanged(this`state, this`loggerFunction, this`stillCrawling, this`stillPruningState, this`console, this`invocations)
      ensures Valid()
      ensures timers == old(timers) + StartTimers(config)
      ensures pruningStateInterval == Some(|old(timers)|) && crawlInterval == Some(|old(timers)| + 1)
    {
      pruningStateInterval := Some(|timers|);
      timers := timers + [Timer(PruneJob, PruningPeriodMs)];
      crawlInterval := Some(|timers|);
      timers := timers + [Timer(CrawlJob, CrawlPeriodMs(config))];
    }

    /**
     * pushMessage(data): echo when printToConsole is true; when
     * sendToOpenCollector is true, call the logger, and on the first
     * failure raise the latch and report it.
     */
    method PushMessage(data: Json, loggerThrows: bool)
      requires Valid()
      modifies this
      ensures unchanged(this`loggerFunction, this`crawlInterval, this`pruningStateInterval, this`stillCrawling, this`stillPruningState, this`timers)
      ensures Valid()
      ensures var o := Push(config.printToConsole, config.sendToOpenCollector, loggerFunction.Some?, loggerThrows,
                            old(state.hasFailedToUseLogger));
              && state.hasFailedToUseLogger == o.latch
              && console == old(console) + PushLines(data, o)
              && invocations == old(invocations) + Calls(data, loggerFunction, config.deviceType, config.filterHelpers, o)
    {
      ghost var o := Push(config.printToConsole, config.sendToOpenCollector, loggerFunction.Some?, loggerThrows,
                          state.hasFailedToUseLogger);
      var lines, sent, latch := Deliver(data, config.printToConsole, config.sendToOpenCollector, loggerFunction,
                                        config.deviceType, config.filterHelpers, loggerThrows, state.hasFailedToUseLogger);
      state := state.(hasFailedToUseLogger := latch);
      console := console + lines;
      invocations := invocations + sent;
    }

    /** crawl(): print that a crawl is still running, or mark one as running, print, and unmark it. */
    method Crawl()
      modifies this
      ensures unchanged(this`state, this`loggerFunction, this`crawlInterval, this`pruningStateInterval, this`stillPruningState, this`timers, this`invocations)
      ensures stillCrawling == old(stillCrawling)
      ensures console == old(console) + [Log(if old(stillCrawling) then StillCrawling else StartCrawling)]
    {
      if stillCrawling {
        console := console + [Log(StillCrawling)];
      } else {
        stillCrawling := true;
        console := console + [Log(StartCrawling)];
        stillCrawling := false;
      }
    }

    /** pruneState(): the same guard around the pruning job. */
    method PruneState()
      modifies this
      ensures unchanged(this`state, this`loggerFunction, this`crawlInterval, this`pruningStateInterval, this`stillCrawling, this`timers, this`invocations)
      ensures stillPruningState == old(stillPruningState)
      ensures console == old(console) + [Log(if old(stillPruningState) then StillPruning else StartPruning)]
    {
      if stillPruningState {
        console := console + [Log(StillPruning)];
      } else {
        stillPruningState := true;
        console := console + [Log(StartPruning)];
        stillPruningState := false;
      }
    }

    /** A timer firing the crawl job: it never finds a crawl still running. */
    method CrawlTimerFires()
      requires Valid()
      modifies this
      ensures unchanged(this`state, this`loggerFunction, this`crawlInterval, this`pruningStateInterval, this`stillPruningState, this`timers, this`invocations)
      ensures Valid()
      ensures console == old(console) + [Log(StartCrawling)]
    {
      Crawl();
    }

    /** A timer firing the pruning job: it never finds a pruning still running. */
    method PruneTimerFires()
      requires Valid()
      modifies this
      ensures unchanged(this`state, this`loggerFunction, this`crawlInterval, this`pruningStateInterval, this`stillCrawling, this`timers, this`invocations)
      ensures Valid()
      ensures console == old(console) + [Log(StartPruning)]
    {
      PruneState();
    }
  }
}
