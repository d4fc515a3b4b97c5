# jsBeat agent core in Dafny

This project models the core of jsBeat, a log-shipping agent that reads log
files and forwards their lines to an Open Collector through a Lumberjack
logger function. It covers four parts:

- **Input readers** (`FlatFile`, `FlatFileTail`, with the shared `Delivery`).
  Each reader is a class holding the source reader's configuration, logger,
  latch and job flags. `FlatFileReaderTail` keeps the `hasFailedToUseLogger`
  latch as a field of its own rather than inside a `state` object. Both
  classes add recorded `console` and `invocations` sequences, and
  `FlatFileReader` adds the recorded `timers`.
  - The constructor applies the default crawl frequency, registers the logger
    and starts unless `autoStart` is exactly `false`.
  - `start` checks its guards before it schedules the daily pruning job and
    the periodic crawl job, or before it opens the tail.
  - Delivering a message echoes it when asked, calls the logger when asked,
    and latches the first logger failure. Only that first failure is
    reported; every later message is still sent.
  - The crawl and prune jobs only guard against overlap and print.
- **Diagnostic logging** (`SystemLogging`):
  - the severity tables;
  - the lookups between severity names and integers, which ignore case;
  - the threshold filter;
  - the `timestamp | SEVERITY | message` line that `logToSystem` writes to the
    console and to a stream that only appends.
- **Configuration loading** (`ConfigReaders`):
  - the decision table of `readConfigFromFile`: path given, file exists, parse
    succeeds, and the exit flags;
  - the main configuration, merged per key with the command line over the
    file over the built-in default, followed by `{jsBeatRoot}` substitution;
  - the list of input definitions.
- **JavaScript values** (`JsValues`):
  - values as `JSON.parse` produces them;
  - truthiness, `.length` and `String(v)`.

Anything outside the program is a parameter. The file system is a map from
path to entry. The clock is the `now` string. Whether a stream or a tail can
be opened, and whether the logger throws, are booleans or optional error
texts. Timers are recorded, not run: each `setInterval` appends a `Timer`
with its job and period, and an interval id is its position in that list.
Console output and logger calls are recorded as sequences. The source prints
fixed messages; the model records them as `Delivery.Message` values, and
`Delivery.Text` gives each one's exact text.

The model follows the code where the code does something unexpected:
- `defaultLevel` is read from the name table with a number as the key, so
  it is undefined.
- `readInputsConfig` refers to an undeclared `err` whenever the inputs
  directory exists.
- `getLevelToInt` returns `Object.prototype`, not a level in 1..6, for any
  spelling of `__proto__` (`LevelToIntPrototypeKey`).
- `crawl` and `pruneState` test the reader's own `stillCrawling` and
  `stillPruningState` properties. These are undefined at first, which is
  falsy. They are not the `state.stillCrawling` and `state.stillPruningState`
  flags that the constructor initialises.

## Model

| member | source | states |
|---|---|---|
| SystemLogging.GetLevelToInt | src/systemLogging.js:33-39 | The result is a level in 1..6 unless the key is `__proto__`. An undefined or empty name gives 2. |
| SystemLogging.DefaultLevelUndefined | src/systemLogging.js:24 | The name table has no entry under the key "2", so `defaultLevel` is undefined. |
| SystemLogging.GetIntToLevel | src/systemLogging.js:42-48 | As written, there is a name exactly for the integers 1..6. Everything else gives undefined. |
| SystemLogging.GetIntToLevelIntended | src/systemLogging.js:41-48 | With `defaultLevel` taken as "Verbose": on 1..6 it agrees with getIntToLevel and maps back to the same integer. Outside 1..6 it gives "Verbose", which maps to 2. |
| SystemLogging.NormalizeMatchesCanonical | src/systemLogging.js:35 | The first-letter-upper, rest-lower spelling of a name equals a canonical key exactly when both lower-case to the same string. |
| SystemLogging.NameRoundTrip | src/systemLogging.js:3-19 | Each of the six names in the integer table is canonical, and looking it up gives back its own integer. |
| SystemLogging.LevelRoundTrip | src/systemLogging.js:33-48 | getLevelToInt(getIntToLevel(i)) == i for i in 1..6. Outside that range the undefined name maps to 2. |
| SystemLogging.LevelToIntCaseInsensitive | src/systemLogging.js:33-38 | Every case spelling of level i's name gives i. For i other than the default 2, only those spellings give i. |
| SystemLogging.LevelToIntPrototypeKey | src/systemLogging.js:35 | The lookup gives Object.prototype exactly for the case spellings of `__proto__`. |
| SystemLogging.LevelDependsOnLowerCase | src/systemLogging.js:35 | The level depends only on the lower-cased spelling of the name. |
| SystemLogging.EmittedSeverity | src/systemLogging.js:68-71 | A line is emitted exactly when severity and message are both non-empty and the level, in 1..6, reaches the threshold. The printed severity is then the upper-cased canonical name of that level. |
| SystemLogging.EmissionMonotone | src/systemLogging.js:69-70 | If a message is emitted at one severity, it is emitted at any higher severity. |
| SystemLogging.ThresholdBounds | src/systemLogging.js:70 | Critical always passes and prints as CRITICAL. Debug passes exactly when logLevel is 1. |
| SystemLogging.SystemLog.constructor | src/systemLogging.js:30 | There is no stream yet and nothing has been written. |
| SystemLogging.SystemLog.OpenStream | src/systemLogging.js:50-63 | A stream that could be created replaces the current one. A failure leaves the current one. |
| SystemLogging.SystemLog.LogToSystem | src/systemLogging.js:66-91 | States the console line, whether the stream is opened, and the stream write (timestamp, severity, message, end of line). An existing stream is kept. Nothing is thrown. |
| ConfigReaders.ReadConfigFromFile | src/configReaders.js:140-192 | It throws exactly when the exit flag matches a missing path or file, or a parse failure. A throw is logged last as Critical with the thrown message. Otherwise it returns the parsed value, or null. An existing file logs Verbose first, and a parsed file logs nothing else. Nothing is logged exactly for an empty path without exitOnFileMissing. |
| ConfigReaders.ReplaceAllWithoutOccurrence | src/configReaders.js:78 | Replacing every `{jsBeatRoot}` leaves a string without one unchanged. |
| ConfigReaders.SubstituteLeadingPlaceholder | src/configReaders.js:78 | A leading `{jsBeatRoot}` followed by text without `{` becomes the root followed by that text. |
| ConfigReaders.Defaults | src/configReaders.js:38-46 | Every key has a default. Each of the four path defaults is `{jsBeatRoot}` followed by text without `{`. The other three defaults hold no `{`, so substitution leaves them alone. |
| ConfigReaders.MergedConfig | src/configReaders.js:66-79 | When no conversion throws, the merged configuration has every key and only the seven keys. |
| ConfigReaders.ReadMainConfig | src/configReaders.js:37-83 | It reads the file that the command line or `<root>/config/jsBeat.json` names. It throws the conversion TypeError exactly when some chosen value cannot be converted by `String(v)`. Otherwise it returns the merge of the defaults with that file. |
| ConfigReaders.MergeSettings | src/configReaders.js:66-79 | The forEach loop over the keys throws exactly when some chosen value cannot be converted. Otherwise it computes exactly the merged configuration. |
| ConfigReaders.MergeSetting | src/configReaders.js:67-78 | One pass of the loop throws exactly when the next key's chosen value cannot be converted. Otherwise it settles that key and leaves later keys at their defaults. |
| ConfigReaders.PartialMergeSplit | src/configReaders.js:66-79 | After i passes, the keys before position i are merged and the rest keep their defaults. |
| ConfigReaders.CommandLineOverridesFile | src/configReaders.js:73-75 | A non-empty command-line value decides the key, whatever the file says. |
| ConfigReaders.FileOverridesDefault | src/configReaders.js:68-70 | Without a command-line value, a non-empty string from the file decides the key. |
| ConfigReaders.DefaultPathUnderRoot | src/configReaders.js:39-42 | Without overrides, a `{jsBeatRoot}/...` default becomes root + "/...". |
| ConfigReaders.DefaultKept | src/configReaders.js:43-45 | Without overrides, a default without a placeholder is kept as is. |
| ConfigReaders.ConversionFailsOnlyFromFile | src/configReaders.js:68-78 | A failed conversion always comes from a file value that is an object or an array. It never comes from a command-line value or a default. |
| ConfigReaders.ScalarFileMerges | src/configReaders.js:66-79 | A file whose values are neither objects nor arrays never makes readMainConfig throw. |
| ConfigReaders.ToStringKeyThrows | src/configReaders.js:68-78 | A `logLevel` object with a truthy `length` and its own `toString` key is chosen from the file, and then its conversion throws. |
| ConfigReaders.DefaultsUnderRoot | src/configReaders.js:38-46 | Without any override, each key's value is stated literally, for example `stateDirectoryPath` is root + "/states". |
| ConfigReaders.MainFileInputs | src/configReaders.js:90-100 | The main inputs file contributes its array, and nothing when it is not an array. |
| ConfigReaders.ReadInputsConfig | src/configReaders.js:86-136 | As written: with the inputs directory present the result is undefined. Otherwise it is the main file's array. |
| ConfigReaders.EntryInputs | src/configReaders.js:116-120 | A directory entry contributes its parsed value when that value is truthy. |
| ConfigReaders.DirectoryInputsSound | src/configReaders.js:113-122 | Every collected input is truthy and is the parsed content of some listed entry. |
| ConfigReaders.DirectoryInputsComplete | src/configReaders.js:113-122 | Every listed entry with truthy parsed content is collected. |
| ConfigReaders.DirectoryInputsBounded | src/configReaders.js:113-122 | There are at most as many inputs as directory entries. |
| ConfigReaders.CollectDirectoryInputs | src/configReaders.js:113-122 | The loop appends exactly the directory's inputs, in readdir order. |
| ConfigReaders.ReadInputsConfigIntended | src/configReaders.js:86-136 | Without line 108, the result is the main file's array followed by the directory's inputs. |
| ConfigReaders.InputsDirectoryDiscarded | src/configReaders.js:104-108 | A concrete file system where an existing inputs directory makes the result undefined, although the intended reading collects its input. |
| Delivery.Deliver | src/inputs/flatFile.js:98-114 | The delivery code both readers share: the echo and report lines, the logger call and the new latch are those of Push. |
| Delivery.RunReportsOnce | src/inputs/flatFile.js:102-113 | Over any run of messages, the latch ends up raised exactly when it started raised or some message failed. At most one failure is reported, and none if the latch started raised. |
| Delivery.RunKeepsSending | src/inputs/flatFile.js:98-113 | Over any run, the logger is called once per message when sending is on and a logger is set, whatever the latch. Each message is echoed when printToConsole is true. |
| FlatFile.EffectiveFrequency | src/inputs/flatFile.js:41-43 | A missing, zero or negative frequency becomes 30. A positive one is kept. |
| FlatFile.FlatFileReader.constructor | src/inputs/flatFile.js:8-54 | Defaults apply and the state starts at its initial values. `use` runs for a truthy logger. `start` runs unless autoStart is false, scheduling both jobs only when it can start. The console is exactly what use and start print. |
| FlatFile.FlatFileReader.Use | src/inputs/flatFile.js:56-68 | A function is stored. Anything else leaves the logger and prints the error. |
| FlatFile.FlatFileReader.Start | src/inputs/flatFile.js:70-96 | With a base path, an inclusion filter and a logger, it schedules prune every 86400000 ms and crawl every frequency*1000 ms and prints the first crawl. Otherwise it prints the first failing check and schedules nothing. |
| FlatFile.FlatFileReader.ScheduleJobs | src/inputs/flatFile.js:76-78 | Adds the two intervals, prune first, and points the interval ids at them. |
| FlatFile.FlatFileReader.PushMessage | src/inputs/flatFile.js:98-114 | Echo iff printToConsole is true. The logger is called with (data, deviceType, filterHelpers) iff sending is on and a logger is set. The first failure raises the latch and is reported. The report count always equals the latch. |
| FlatFile.FlatFileReader.Crawl | src/inputs/flatFile.js:117-126 | It prints "still crawling" or "start crawling" by the flag, and returns with the flag as it found it. |
| FlatFile.FlatFileReader.PruneState | src/inputs/flatFile.js:128-137 | The same for the pruning job. |
| FlatFile.FlatFileReader.CrawlTimerFires | src/inputs/flatFile.js:117-126 | Between calls no crawl is marked running, so a scheduled crawl always starts. |
| FlatFile.FlatFileReader.PruneTimerFires | src/inputs/flatFile.js:128-137 | Between calls no pruning is marked running, so a scheduled pruning always starts. |
| FlatFileTail.FlatFileReaderTail.constructor | src/inputs/flatFileTail.js:6-30 | The latch starts down. `use` runs for a truthy logger. `start` runs unless autoStart is false. A tail is open exactly when start ran with a path and a logger and opening did not throw. |
| FlatFileTail.FlatFileReaderTail.Use | src/inputs/flatFileTail.js:32-44 | A function is stored. Anything else leaves the logger and prints the error. |
| FlatFileTail.FlatFileReaderTail.Start | src/inputs/flatFileTail.js:46-69 | With a path and a logger, it opens a tail on the path; an error thrown while opening is printed and the old tail is kept. Otherwise it prints why and opens nothing. |
| FlatFileTail.FlatFileReaderTail.OnTailLineEvent | src/inputs/flatFileTail.js:71-87 | Each line is delivered as by Push: echo iff printToConsole is true, and a logger call iff sendToOpenCollector is true. Only the first failure is reported, and the latch never resets. |
| FlatFileTail.FlatFileReaderTail.OnTailError | src/inputs/flatFileTail.js:54-56 | An error from the tail is printed and changes nothing else. |

## Left out

- Case mapping covers ASCII letters only. Strings are sequences of code points, not UTF-16 code units.
- The `$` patterns in the replacement argument of `String.prototype.replace` are not modelled. The root directory is inserted literally.
- `path.join` normalisation is not modelled. The inputs directory and entry names are joined with a single `/`.
- JSON numbers are integers. Fractional frequencies and numeric strings are outside the model. `logLevel` from the environment is a real number.
- Command-line values are strings only. File values of every JSON kind are modelled. `String(v)` throws for an object with its own `toString` key, or for an array that holds one, and readMainConfig then throws. Every other value is converted as `String(v)` converts it. `FileOverridesDefault` is proved for string file values only.
- The main configuration is typed as seven string-valued keys.
- `String(n)` writes integers of 1e21 or more in exponent form. `IntText` writes every digit.
- `new FlatFileReader(undefined, f)` and `new FlatFileReaderTail(undefined, f)` throw when they read `config.autoStart` (flatFile.js:51, flatFileTail.js:27). The model's configuration is always a record, so that throw is not modelled.
- Console formatting of printed objects (`console.log(data)`, `console.error(err)`) is not modelled. The model records which value or message was printed.
- `openStream` ends the previous stream, but `logToSystem` opens a stream only while there is none, so that path is never taken.
- Real timers never fire in the model. `CrawlTimerFires` and `PruneTimerFires` stand for one firing.
- The `tail` library is represented only by whether opening it throws and by the line and error events it emits.
- The try/catch around the two `setInterval` calls in `start` is not modelled. The model's timers cannot throw.
- `configReaders.js` parses the command line and checks that `jsBeatRoot` exists at lines 9-34. Neither is modelled: `commandArgs` and `jsBeatRoot` are parameters.
- Most diagnostic `logToSystem` calls of `readMainConfig` and `readInputsConfig` are not modelled (lines 60, 98, 107, 114, 124, 128). The model keeps only the line-108 failure, because it changes the result.
- `logMessage.js` (the Lumberjack client), `httpRest.js`, `troubleshootingUtils.js`, `index.js` and `webpack.config.js` are not part of this model.
- ConfigReaders.ReplaceAll: only the consequences used by the merge are proved, namely no placeholder and a single leading placeholder. No general leftmost-occurrence characterisation of the replacement is proved.

## Findings

| source | as written | input that shows it | evidently intended | confidence | as-written member | corrected member |
|---|---|---|---|---|---|---|
| src/systemLogging.js:24 | `defaultLevel` is `levelToInt[defaultLevelInt]`, a name table looked up with the number 2, so it is undefined. getIntToLevel returns undefined outside 1..6. | getIntToLevel(7) | `intToLevel[defaultLevelInt]`, that is "Verbose", as the comment at line 41 says | not executed | SystemLogging.GetIntToLevel | SystemLogging.GetIntToLevelIntended |
| src/configReaders.js:108 | `logToSystem('Warning', err.message, true)` refers to an undeclared `err`. Whenever the inputs directory exists this throws a ReferenceError, and the catch returns undefined. | an inputs directory `/etc/inputs.d` holding `a.json` with a JSON object | drop the line; per-file inputs are appended to the main file's array | not executed | ConfigReaders.InputsDirectoryDiscarded | ConfigReaders.ReadInputsConfigIntended |
