/**
 * Configuration loading (src/configReaders.js): reading one JSON file with
 * its exit-or-continue decision table, the layered main configuration
 * (command line over file over built-in default, then `{jsBeatRoot}`
 * substitution), and the list of input definitions.
 *
 * The file system is a value: a map from path to what is there. What
 * fs.existsSync, fs.readFileSync, JSON.parse, fs.statSync and
 * fs.readdirSync would report is read off that map. The command-line
 * arguments and the root directory are parameters.
 */
module ConfigReaders {
  import opened JsValues

  /** What reading and parsing a regular file gives. */
  datatype FileContent = Parsed(value: Json) | Malformed

  /** An existing path: a regular file or a directory with its entry names (readdirSync order). */
  datatype FsEntry = File(content: FileContent) | Directory(names: seq<string>)

  type FileSystem = map<string, FsEntry>

  /** One call of logToSystem(severity, message, true). */
  datatype LogCall = LogCall(severity: string, message: string)

  /** What readConfigFromFile returns or throws, and what it logs on the way. */
  datatype ReadOutcome = ReadOutcome(result: Result<Json, string>, log: seq<LogCall>)

  /** `path && path.length && fs.existsSync(path)`. */
  predicate Exists(path: string, fs: FileSystem) {
    |path| > 0 && path in fs
  }

  /** The value JSON.parse(fs.readFileSync(path)) returns, when neither throws. */
  function ParsedAt(path: string, fs: FileSystem): Option<Json> {
    if Exists(path, fs) && fs[path].File? && fs[path].content.Parsed? then Some(fs[path].content.value) else None
  }

  const DefaultValuesNote := " Using default values instead."

  function Quoted(path: string): string {
    "\"" + path + "\""
  }

  /**
   * readConfigFromFile. Reading a directory fails inside the same try as a
   * parse error does. The two `useDefaultValues...` flags only add a note to
   * the logged message.
   */
  function ReadConfigFromFile(path: string, fs: FileSystem, exitOnFileMissing: bool, exitOnParsingError: bool,
                              useDefaultValuesOnFileMissing: bool, useDefaultValuesOnParsingError: bool): (r: ReadOutcome)
    ensures r.result.Err? <==>
              || (exitOnFileMissing && !Exists(path, fs))
              || (exitOnParsingError && Exists(path, fs) && ParsedAt(path, fs).None?)
    ensures r.result.Err? ==> |r.log| > 0 && r.log[|r.log| - 1] == LogCall("Critical", r.result.error)
    ensures r.result.Ok? ==> r.result.value == (if ParsedAt(path, fs).Some? then ParsedAt(path, fs).value else JNull)
    ensures Exists(path, fs) ==> |r.log| > 0 && r.log[0].severity == "Verbose"
    ensures ParsedAt(path, fs).Some? ==> |r.log| == 1
    ensures r.log == [] <==> |path| == 0 && !exitOnFileMissing
  {
    if |path| > 0 then
      if path in fs then
        var reading := LogCall("Verbose", "Reading configuration file " + Quoted(path) + "...");
        if ParsedAt(path, fs).Some? then
          ReadOutcome(Ok(ParsedAt(path, fs).value), [reading])
        else if exitOnParsingError then
          var message := "CRITICAL: Failed parsing configuration file " + Quoted(path) + ". Exiting.";
          ReadOutcome(Err(message), [reading, LogCall("Critical", message)])
        else
          var note := if useDefaultValuesOnParsingError then DefaultValuesNote else "";
          ReadOutcome(Ok(JNull), [reading, LogCall("Error", "Failed parsing configuration file " + Quoted(path) + "." + note)])
      else if exitOnFileMissing then
        var message := "CRITICAL: Configuration file " + Quoted(path) + " doesn't exist. Exiting.";
        ReadOutcome(Err(message), [LogCall("Critical", message)])
      else
        var note := if useDefaultValuesOnFileMissing then DefaultValuesNote else "";
        ReadOutcome(Ok(JNull), [LogCall("Warning", "Configuration file " + Quoted(path) + " doesn't exist." + note)])
    else if exitOnFileMissing then
      var message := "CRITICAL: No file path provided. Exiting.";
      ReadOutcome(Err(message), [LogCall("Critical", message)])
    else
      ReadOutcome(Ok(JNull), [])
  }

  // ---------------------------------------------------------------------------
  // `{jsBeatRoot}` substitution

  const Placeholder := "{jsBeatRoot}"

  /** `pat` occurs in `s` at index i. */
  predicate OccursAt(s: string, pat: string, i: int) {
    0 <= i && i + |pat| <= |s| && s[i..i + |pat|] == pat
  }

  /** `s` begins with `pat`, compared character by character. */
  predicate StartsWith(s: string, pat: string)
    decreases |pat|
  {
    |pat| == 0 || (|s| > 0 && s[0] == pat[0] && StartsWith(s[1..], pat[1..]))
  }

  /** Beginning with `pat` is having `pat` as the leading slice. */
  lemma {:induction false} StartsWithSlice(s: string, pat: string)
    ensures StartsWith(s, pat) <==> |pat| <= |s| && s[..|pat|] == pat
    decreases |pat|
  {
    if |pat| > 0 && |s| > 0 {
      StartsWithSlice(s[1..], pat[1..]);
      if |pat| <= |s| {
        assert s[..|pat|] == [s[0]] + s[1..][..|pat| - 1];
        assert pat == [pat[0]] + pat[1..];
      }
    }
  }

  /**
   * `s.replace(/pat/g, rep)` for a pattern that matches only its own text:
   * leftmost occurrences first, none overlapping, the replacement taken literally.
   */
  function ReplaceAll(s: string, pat: string, rep: string): string
    requires |pat| > 0
    decreases |s|
  {
    if |s| < |pat| then s
    else if StartsWith(s, pat) then rep + ReplaceAll(s[|pat|..], pat, rep)
    else [s[0]] + ReplaceAll(s[1..], pat, rep)
  }

  /** Dropping the first character moves every occurrence one place to the left. */
  lemma OccursAtTail(s: string, pat: string, i: int)
    requires |s| > 0 && 0 <= i
    ensures OccursAt(s[1..], pat, i) <==> OccursAt(s, pat, i + 1)
  {
    if 0 <= i && i + |pat| <= |s| - 1 {
      assert s[1..][i..i + |pat|] == s[i + 1..i + 1 + |pat|];
    }
  }

  /** A string without the pattern comes back unchanged. */
  lemma {:induction false} ReplaceAllWithoutOccurrence(s: string, pat: string, rep: string)
    requires |pat| > 0
    requires forall i :: !OccursAt(s, pat, i)
    ensures ReplaceAll(s, pat, rep) == s
  {
    if |s| >= |pat| {
      ReplaceAllSkip(s, pat, rep);
      forall i ensures !OccursAt(s[1..], pat, i) {
        if 0 <= i {
          OccursAtTail(s, pat, i);
        }
      }
      ReplaceAllWithoutOccurrence(s[1..], pat, rep);
    }
  }

  /** Where the pattern does not start, the first character is copied and the scan moves on by one. */
  lemma ReplaceAllSkip(s: string, pat: string, rep: string)
    requires |pat| > 0 && |s| > 0 && !OccursAt(s, pat, 0)
    ensures ReplaceAll(s, pat, rep) == [s[0]] + ReplaceAll(s[1..], pat, rep)
  {
    StartsWithSlice(s, pat);
    if |s| >= |pat| {
      assert s[..|pat|] != pat by {
        assert s[0..|pat|] == s[..|pat|];
      }
    }
  }

  /** Text without a `{` holds no placeholder. */
  lemma NoBraceNoPlaceholder(s: string)
    requires '{' !in s
    ensures forall i :: !OccursAt(s, Placeholder, i)
  {
    forall i ensures !OccursAt(s, Placeholder, i) {
      if 0 <= i && i + |Placeholder| <= |s| {
        assert s[i..i + |Placeholder|][0] == s[i];
        assert s[i] in s;
      }
    }
  }

  /** A placeholder followed by brace-free text: the root followed by that text. */
  lemma SubstituteLeadingPlaceholder(t: string, root: string)
    requires '{' !in t
    ensures ReplaceAll(Placeholder + t, Placeholder, root) == root + t
  {
    var s := Placeholder + t;
    assert s[..|Placeholder|] == Placeholder;
    StartsWithSlice(s, Placeholder);
    assert s[|Placeholder|..] == t;
    NoBraceNoPlaceholder(t);
    ReplaceAllWithoutOccurrence(t, Placeholder, root);
  }

  // ---------------------------------------------------------------------------
  // readMainConfig

  /** The seven settings of the main configuration, one per property of the returned object. */
  datatype SettingKey =
    | StateDirectoryPath
    | InputsConfigFilePath
    | InputsConfigFilesDirectoryPath
    | LumberjackConfigPath
    | DecompressionTemporaryRootPath
    | LogFilePath
    | LogLevel

  /** The settings in the order Object.keys lists them. */
  const SettingKeys: seq<SettingKey> := [
    StateDirectoryPath, InputsConfigFilePath, InputsConfigFilesDirectoryPath, LumberjackConfigPath,
    DecompressionTemporaryRootPath, LogFilePath, LogLevel
  ]

  /** The property name: also the command-line option and the key looked up in the file. */
  function KeyName(k: SettingKey): string {
    match k
    case StateDirectoryPath => "stateDirectoryPath"
    case InputsConfigFilePath => "inputsConfigFilePath"
    case InputsConfigFilesDirectoryPath => "inputsConfigFilesDirectoryPath"
    case LumberjackConfigPath => "lumberjackConfigPath"
    case DecompressionTemporaryRootPath => "decompressionTemporaryRootPath"
    case LogFilePath => "logFilePath"
    case LogLevel => "logLevel"
  }

  /** The built-in default of each setting; the four paths start with the placeholder. */
  function DefaultValue(k: SettingKey): string {
    match k
    case StateDirectoryPath => Placeholder + "/states"
    case InputsConfigFilePath => Placeholder + "/config/inputs.json"
    case InputsConfigFilesDirectoryPath => Placeholder + "/config/inputs.d"
    case LumberjackConfigPath => Placeholder + "/config/lumberjack.json"
    case DecompressionTemporaryRootPath => "/tmp/jsBeat/decompressedFiles"
    case LogFilePath => "/var/log/jsBeat"
    case LogLevel => "information"
  }

  /** The four path settings: their defaults live under the root directory. */
  predicate RootedSetting(k: SettingKey) {
    k.StateDirectoryPath? || k.InputsConfigFilePath? || k.InputsConfigFilesDirectoryPath? || k.LumberjackConfigPath?
  }

  /**
   * The object readMainConfig starts from: every setting at its default.
   * A path default is the placeholder followed by brace-free text; any other
   * default holds no brace, hence no placeholder.
   */
  function Defaults(): (config: map<SettingKey, string>)
    ensures forall k :: k in config
    ensures forall k :: RootedSetting(k) ==>
              |Placeholder| <= |config[k]| && config[k][..|Placeholder|] == Placeholder
              && '{' !in config[k][|Placeholder|..]
    ensures forall k :: !RootedSetting(k) ==> '{' !in config[k]
  {
    map k: SettingKey | true :: DefaultValue(k)
  }

  /** Where Object.keys lists a setting. */
  function Position(k: SettingKey): (i: nat)
    ensures i < |SettingKeys| && SettingKeys[i] == k
  {
    match k
    case StateDirectoryPath => 0
    case InputsConfigFilePath => 1
    case InputsConfigFilesDirectoryPath => 2
    case LumberjackConfigPath => 3
    case DecompressionTemporaryRootPath => 4
    case LogFilePath => 5
    case LogLevel => 6
  }

  /** Object.keys lists each setting once: at its position and nowhere else. */
  lemma SettingKeysListEveryKey()
    ensures forall i :: 0 <= i < |SettingKeys| ==> Position(SettingKeys[i]) == i
  {
  }

  /** The main configuration file: --jsBeatConfigFile when given, else `<root>/config/jsBeat.json`. */
  function MainConfigFilePath(root: string, args: map<string, string>): string {
    if "jsBeatConfigFile" in args && |args["jsBeatConfigFile"]| > 0 then args["jsBeatConfigFile"]
    else root + "/config/jsBeat.json"
  }

  /** `configFromFile`: what readConfigFromFile returns for the main file (null when missing or malformed). */
  function MainConfigFromFile(root: string, args: map<string, string>, fs: FileSystem): Json {
    var read := ReadConfigFromFile(MainConfigFilePath(root, args), fs, false, false, true, true);
    if read.result.Ok? then read.result.value else JObj(map[])
  }

  /** `configFromFile[key]` when `configFromFile && configFromFile[key] && configFromFile[key].length`. */
  function FileValue(fromFile: Json, key: SettingKey): Option<Json> {
    var name := KeyName(key);
    if fromFile.JObj? && name in fromFile.fields && Truthy(fromFile.fields[name]) && HasLength(fromFile.fields[name])
    then Some(fromFile.fields[name])
    else None
  }

  /** A non-empty command-line value for the setting. */
  predicate FromCommandLine(args: map<string, string>, key: SettingKey) {
    KeyName(key) in args && |args[KeyName(key)]| > 0
  }

  /** The value a setting takes before substitution: command line, else file, else built-in default. */
  function ChosenValue(key: SettingKey, fromFile: Json, args: map<string, string>): Json {
    if FromCommandLine(args, key) then JStr(args[KeyName(key)])
    else match FileValue(fromFile, key)
      case Some(v) => v
      case None => JStr(DefaultValue(key))
  }

  /** The message of the TypeError `String(v)` throws for a value that is not Convertible. */
  const ConversionError := "Cannot convert object to primitive value"

  /** Every setting's chosen value converts with `String(v)`; otherwise the forEach throws out of readMainConfig. */
  predicate MergeSucceeds(fromFile: Json, args: map<string, string>) {
    forall k :: Convertible(ChosenValue(k, fromFile, args))
  }

  /** One setting: the chosen value as a string, with every placeholder replaced by the root. */
  function SettingValue(root: string, fromFile: Json, args: map<string, string>, key: SettingKey): string {
    ReplaceAll(ToJsString(ChosenValue(key, fromFile, args)), Placeholder, root)
  }

  /** The configuration readMainConfig returns when MergeSucceeds: every setting, each chosen then substituted. */
  function MergedConfig(root: string, fromFile: Json, args: map<string, string>): (config: map<SettingKey, string>)
    ensures forall k :: k in config
  {
    map k: SettingKey | true :: SettingValue(root, fromFile, args, k)
  }

  /**
   * readMainConfig: read the main file, then update the built-in defaults
   * setting by setting. It throws when some chosen value cannot be converted
   * to a string.
   */
  method ReadMainConfig(root: string, args: map<string, string>, fs: FileSystem)
    returns (r: Result<map<SettingKey, string>, string>)
    ensures var fromFile := MainConfigFromFile(root, args, fs);
            && (r.Ok? <==> MergeSucceeds(fromFile, args))
            && (r.Ok? ==> r.value == MergedConfig(root, fromFile, args))
            && (r.Err? ==> r.error == ConversionError)
  {
    var configFilePath := root + "/config/jsBeat.json";
    if "jsBeatConfigFile" in args && |args["jsBeatConfigFile"]| > 0 {
      configFilePath := args["jsBeatConfigFile"];
    }
    // readConfigFromFile cannot throw with both exit flags false
    var read := ReadConfigFromFile(configFilePath, fs, false, false, true, true);
    r := MergeSettings(root, read.result.value, args);
  }

  /** The object after the first `i` rounds of the forEach: those settings taken from `merged`, the rest still default. */
  function PartialMerge(merged: map<SettingKey, string>, i: nat): map<SettingKey, string>
    requires i <= |SettingKeys| && forall k :: k in merged
  {
    if i == 0 then Defaults()
    else PartialMerge(merged, i - 1)[SettingKeys[i - 1] := merged[SettingKeys[i - 1]]]
  }

  /** After `i` rounds, the settings Object.keys lists first are merged and the rest are still at their defaults. */
  lemma {:induction false} PartialMergeSplit(merged: map<SettingKey, string>, i: nat)
    requires i <= |SettingKeys| && forall k :: k in merged
    ensures forall k :: k in PartialMerge(merged, i)
    ensures forall k :: PartialMerge(merged, i)[k] == if Position(k) < i then merged[k] else DefaultValue(k)
  {
    if i > 0 {
      PartialMergeSplit(merged, i - 1);
      var key := SettingKeys[i - 1];
      SettingKeysListEveryKey();
      assert Position(key) == i - 1;
      forall k ensures PartialMerge(merged, i)[k] == if Position(k) < i then merged[k] else DefaultValue(k) {
        if k != key {
          assert Position(k) != i - 1;
        }
      }
    }
  }

  /** The setting visited in round `i` is still at its default when the round starts. */
  lemma PartialMergePending(merged: map<SettingKey, string>, i: nat)
    requires i < |SettingKeys| && forall k :: k in merged
    ensures SettingKeys[i] in PartialMerge(merged, i)
    ensures PartialMerge(merged, i)[SettingKeys[i]] == DefaultValue(SettingKeys[i])
  {
    PartialMergeSplit(merged, i);
    SettingKeysListEveryKey();
  }

  /** After the last round every setting is merged. */
  lemma PartialMergeEnd(merged: map<SettingKey, string>)
    requires forall k :: k in merged
    ensures PartialMerge(merged, |SettingKeys|) == merged
  {
    PartialMergeSplit(merged, |SettingKeys|);
  }

  /** The first `i` rounds of the forEach converted their values without a throw. */
  predicate ConvertedBefore(fromFile: Json, args: map<string, string>, i: nat) {
    forall j :: 0 <= j < i && j < |SettingKeys| ==> Convertible(ChosenValue(SettingKeys[j], fromFile, args))
  }

  lemma ConvertedStep(fromFile: Json, args: map<string, string>, i: nat)
    requires i < |SettingKeys| && ConvertedBefore(fromFile, args, i)
    requires Convertible(ChosenValue(SettingKeys[i], fromFile, args))
    ensures ConvertedBefore(fromFile, args, i + 1)
  {
  }

  /** A conversion that succeeds at every round of the forEach succeeds for every setting. */
  lemma EveryKeyVisited(fromFile: Json, args: map<string, string>)
    requires ConvertedBefore(fromFile, args, |SettingKeys|)
    ensures MergeSucceeds(fromFile, args)
  {
    forall k ensures Convertible(ChosenValue(k, fromFile, args)) {
      assert SettingKeys[Position(k)] == k;
    }
  }

  /** The forEach over the settings, in Object.keys order; the first value that cannot be converted ends it with a throw. */
  method MergeSettings(root: string, configFromFile: Json, args: map<string, string>)
    returns (r: Result<map<SettingKey, string>, string>)
    ensures r.Ok? <==> MergeSucceeds(configFromFile, args)
    ensures r.Ok? ==> r.value == MergedConfig(root, configFromFile, args)
    ensures r.Err? ==> r.error == ConversionError
  {
    ghost var merged := MergedConfig(root, configFromFile, args);
    var config := Defaults();
    var i := 0;
    while i < |SettingKeys|
      invariant 0 <= i <= |SettingKeys|
      invariant config == PartialMerge(merged, i)
      invariant ConvertedBefore(configFromFile, args, i)
    {
      var step := MergeSetting(root, configFromFile, args, config, i);
      if step.Err? {
        assert !MergeSucceeds(configFromFile, args) by {
          assert !Convertible(ChosenValue(SettingKeys[i], configFromFile, args));
        }
        return Err(ConversionError);
      }
      config := step.value;
      ConvertedStep(configFromFile, args, i);
      i := i + 1;
    }
    EveryKeyVisited(configFromFile, args);
    PartialMergeEnd(merged);
    r := Ok(config);
  }

  /**
   * The body of the forEach for the `i`-th setting, still at its default:
   * file value, then command-line value, then substitution.
   */
  method MergeSetting(root: string, configFromFile: Json, args: map<string, string>, config: map<SettingKey, string>, i: nat)
    returns (r: Result<map<SettingKey, string>, string>)
    requires i < |SettingKeys| && config == PartialMerge(MergedConfig(root, configFromFile, args), i)
    ensures r.Ok? <==> Convertible(ChosenValue(SettingKeys[i], configFromFile, args))
    ensures r.Ok? ==> r.value == PartialMerge(MergedConfig(root, configFromFile, args), i + 1)
    ensures r.Err? ==> r.error == ConversionError
  {
    var key := SettingKeys[i];
    PartialMergePending(MergedConfig(root, configFromFile, args), i);
    var name := KeyName(key);
    var value := JStr(config[key]);
    if configFromFile.JObj? && name in configFromFile.fields && Truthy(configFromFile.fields[name])
       && HasLength(configFromFile.fields[name]) {
      value := configFromFile.fields[name];
    }
    if name in args && |args[name]| > 0 {
      value := JStr(args[name]);
    }
    assert value == ChosenValue(key, configFromFile, args);
    if !Convertible(value) {
      return Err(ConversionError);
    }
    r := Ok(config[key := ReplaceAll(ToJsString(value), Placeholder, root)]);
  }

  /** Neither the command line nor the file sets this setting. */
  predicate NoOverride(key: SettingKey, fromFile: Json, args: map<string, string>) {
    !FromCommandLine(args, key) && FileValue(fromFile, key).None?
  }

  /** A non-empty command-line value decides the setting, whatever the file says. */
  lemma CommandLineOverridesFile(root: string, fromFile1: Json, fromFile2: Json, args: map<string, string>, key: SettingKey)
    requires FromCommandLine(args, key)
    ensures MergedConfig(root, fromFile1, args)[key] == MergedConfig(root, fromFile2, args)[key]
    ensures MergedConfig(root, fromFile1, args)[key] == ReplaceAll(args[KeyName(key)], Placeholder, root)
  {
    assert ChosenValue(key, fromFile1, args) == JStr(args[KeyName(key)]);
    assert ChosenValue(key, fromFile2, args) == JStr(args[KeyName(key)]);
  }

  /** Without a command-line value, a non-empty string in the file decides the setting. */
  lemma FileOverridesDefault(root: string, fields: map<string, Json>, args: map<string, string>, key: SettingKey, s: string)
    requires !FromCommandLine(args, key)
    requires KeyName(key) in fields && fields[KeyName(key)] == JStr(s) && s != ""
    ensures MergedConfig(root, JObj(fields), args)[key] == ReplaceAll(s, Placeholder, root)
  {
  }

  /** A default path that starts with the placeholder lands under the root. */
  lemma DefaultPathUnderRoot(root: string, fromFile: Json, args: map<string, string>, key: SettingKey, tail: string)
    requires NoOverride(key, fromFile, args)
    requires DefaultValue(key) == Placeholder + tail && '{' !in tail
    ensures MergedConfig(root, fromFile, args)[key] == root + tail
  {
    assert ChosenValue(key, fromFile, args) == JStr(Placeholder + tail);
    SubstituteLeadingPlaceholder(tail, root);
  }

  /** A default without a placeholder is kept as it is. */
  lemma DefaultKept(root: string, fromFile: Json, args: map<string, string>, key: SettingKey)
    requires NoOverride(key, fromFile, args) && '{' !in DefaultValue(key)
    ensures MergedConfig(root, fromFile, args)[key] == DefaultValue(key)
  {
    NoBraceNoPlaceholder(DefaultValue(key));
    ReplaceAllWithoutOccurrence(DefaultValue(key), Placeholder, root);
  }

  /** What each setting becomes when nothing overrides it, written out by hand. */
  function RootedDefault(root: string, k: SettingKey): string {
    match k
    case StateDirectoryPath => root + "/states"
    case InputsConfigFilePath => root + "/config/inputs.json"
    case InputsConfigFilesDirectoryPath => root + "/config/inputs.d"
    case LumberjackConfigPath => root + "/config/lumberjack.json"
    case DecompressionTemporaryRootPath => "/tmp/jsBeat/decompressedFiles"
    case LogFilePath => "/var/log/jsBeat"
    case LogLevel => "information"
  }

  /** With no overrides, the four paths sit under the root and the other settings keep their built-in values. */
  lemma DefaultsUnderRoot(root: string, fromFile: Json, args: map<string, string>)
    requires forall k :: NoOverride(k, fromFile, args)
    ensures forall k :: MergedConfig(root, fromFile, args)[k] == RootedDefault(root, k)
  {
    forall k ensures MergedConfig(root, fromFile, args)[k] == RootedDefault(root, k) {
      match k
      case StateDirectoryPath => DefaultPathUnderRoot(root, fromFile, args, k, "/states");
      case InputsConfigFilePath => DefaultPathUnderRoot(root, fromFile, args, k, "/config/inputs.json");
      case InputsConfigFilesDirectoryPath => DefaultPathUnderRoot(root, fromFile, args, k, "/config/inputs.d");
      case LumberjackConfigPath => DefaultPathUnderRoot(root, fromFile, args, k, "/config/lumberjack.json");
      case DecompressionTemporaryRootPath => DefaultKept(root, fromFile, args, k);
      case LogFilePath => DefaultKept(root, fromFile, args, k);
      case LogLevel => DefaultKept(root, fromFile, args, k);
    }
  }

  /** Only a value taken from the file can fail to convert: an object or an array, never a default or a command-line value. */
  lemma ConversionFailsOnlyFromFile(fromFile: Json, args: map<string, string>, k: SettingKey)
    requires !Convertible(ChosenValue(k, fromFile, args))
    ensures !FromCommandLine(args, k) && FileValue(fromFile, k).Some?
    ensures FileValue(fromFile, k).value.JObj? || FileValue(fromFile, k).value.JArr?
  {
  }

  /** A file whose settings are all strings, numbers, booleans or null always merges. */
  lemma ScalarFileMerges(fields: map<string, Json>, args: map<string, string>)
    requires forall name | name in fields :: !fields[name].JObj? && !fields[name].JArr?
    ensures MergeSucceeds(JObj(fields), args)
  {
    forall k ensures Convertible(ChosenValue(k, JObj(fields), args)) {
      if !FromCommandLine(args, k) && FileValue(JObj(fields), k).Some? {
        assert FileValue(JObj(fields), k).value == fields[KeyName(k)];
      }
    }
  }

  /** A `logLevel` object with a truthy `length` and its own `toString` key is chosen, then makes the conversion throw. */
  lemma ToStringKeyThrows()
    ensures var bad := JObj(map["length" := JNum(1), "toString" := JStr("x")]);
            && ChosenValue(LogLevel, JObj(map["logLevel" := bad]), map[]) == bad
            && !MergeSucceeds(JObj(map["logLevel" := bad]), map[])
  {
    var bad := JObj(map["length" := JNum(1), "toString" := JStr("x")]);
    assert FileValue(JObj(map["logLevel" := bad]), LogLevel) == Some(bad);
    assert !Convertible(ChosenValue(LogLevel, JObj(map["logLevel" := bad]), map[]));
  }
  // ---------------------------------------------------------------------------
  // readInputsConfig

  /** path.join(dir, name). */
  function JoinPath(dir: string, name: string): string {
    dir + "/" + name
  }

  /** The inputs listed in the main inputs file: its array, or nothing when the path is empty or it holds anything else. */
  function MainFileInputs(path: string, fs: FileSystem): (inputs: seq<Json>)
    ensures ParsedAt(path, fs).Some? && ParsedAt(path, fs).value.JArr? ==> inputs == ParsedAt(path, fs).value.items
    ensures !(ParsedAt(path, fs).Some? && ParsedAt(path, fs).value.JArr?) ==> inputs == []
  {
    if |path| > 0 then
      var read := ReadConfigFromFile(path, fs, false, false, true, true);
      var inputsFromFile := read.result.value;
      if Truthy(inputsFromFile) && inputsFromFile.JArr? then inputsFromFile.items else []
    else []
  }

  /**
   * readInputsConfig as written: when the inputs directory exists, line 108
   * reads the undeclared `err`, the ReferenceError lands in the outer catch
   * and the result is undefined (None).
   */
  function ReadInputsConfig(inputsConfigFilePath: string, inputsConfigFilesDirectoryPath: string, fs: FileSystem): (r: Option<seq<Json>>)
    ensures Exists(inputsConfigFilesDirectoryPath, fs) ==> r == None
    ensures !Exists(inputsConfigFilesDirectoryPath, fs) ==> r == Some(MainFileInputs(inputsConfigFilePath, fs))
  {
    var inputsArray := MainFileInputs(inputsConfigFilePath, fs);
    if Exists(inputsConfigFilesDirectoryPath, fs) then None
    else Some(inputsArray)
  }

  /** The config one directory entry contributes: its parsed value when that is truthy. */
  function EntryInputs(dir: string, name: string, fs: FileSystem): (inputs: seq<Json>)
    ensures inputs == (if ParsedAt(JoinPath(dir, name), fs).Some? && Truthy(ParsedAt(JoinPath(dir, name), fs).value)
                       then [ParsedAt(JoinPath(dir, name), fs).value] else [])
  {
    var individualInputConfig := ReadConfigFromFile(JoinPath(dir, name), fs, false, false, false, false).result.value;
    if Truthy(individualInputConfig) then [individualInputConfig] else []
  }

  /** What the directory entries `names` contribute, in listing order. */
  function DirectoryInputs(dir: string, names: seq<string>, fs: FileSystem): seq<Json>
    decreases |names|
  {
    if names == [] then []
    else DirectoryInputs(dir, names[..|names| - 1], fs) + EntryInputs(dir, names[|names| - 1], fs)
  }

  /** The input definitions the intended readInputsConfig returns. */
  function InputsConfigIntended(inputsConfigFilePath: string, inputsConfigFilesDirectoryPath: string, fs: FileSystem): seq<Json> {
    MainFileInputs(inputsConfigFilePath, fs)
    + if Exists(inputsConfigFilesDirectoryPath, fs) && fs[inputsConfigFilesDirectoryPath].Directory?
      then DirectoryInputs(inputsConfigFilesDirectoryPath, fs[inputsConfigFilesDirectoryPath].names, fs)
      else []
  }

  /** Every collected definition is the truthy parsed content of one listed entry. */
  lemma {:induction false} DirectoryInputsSound(dir: string, names: seq<string>, fs: FileSystem, x: Json)
    requires x in DirectoryInputs(dir, names, fs)
    ensures Truthy(x) && exists name :: name in names && ParsedAt(JoinPath(dir, name), fs) == Some(x)
    decreases |names|
  {
    var last := names[|names| - 1];
    if x in DirectoryInputs(dir, names[..|names| - 1], fs) {
      DirectoryInputsSound(dir, names[..|names| - 1], fs, x);
      var name :| name in names[..|names| - 1] && ParsedAt(JoinPath(dir, name), fs) == Some(x);
      assert name in names;
    } else {
      assert x in EntryInputs(dir, last, fs);
      assert last in names;
    }
  }

  /** Every listed entry whose content parses to a truthy value is collected. */
  lemma {:induction false} DirectoryInputsComplete(dir: string, names: seq<string>, fs: FileSystem, name: string)
    requires name in names
    requires ParsedAt(JoinPath(dir, name), fs).Some? && Truthy(ParsedAt(JoinPath(dir, name), fs).value)
    ensures ParsedAt(JoinPath(dir, name), fs).value in DirectoryInputs(dir, names, fs)
    ensures |DirectoryInputs(dir, names, fs)| <= |names|
    decreases |names|
  {
    DirectoryInputsBounded(dir, names, fs);
    if name == names[|names| - 1] {
      assert EntryInputs(dir, name, fs) == [ParsedAt(JoinPath(dir, name), fs).value];
    } else {
      assert name in names[..|names| - 1] by {
        var j :| 0 <= j < |names| && names[j] == name;
        assert j < |names| - 1;
        assert names[..|names| - 1][j] == name;
      }
      DirectoryInputsComplete(dir, names[..|names| - 1], fs, name);
    }
  }

  /** At most one definition per directory entry. */
  lemma {:induction false} DirectoryInputsBounded(dir: string, names: seq<string>, fs: FileSystem)
    ensures |DirectoryInputs(dir, names, fs)| <= |names|
    decreases |names|
  {
    if names != [] {
      DirectoryInputsBounded(dir, names[..|names| - 1], fs);
    }
  }

  /** Reading one more directory entry appends what that entry contributes. */
  lemma DirectoryInputsStep(dir: string, names: seq<string>, i: nat, fs: FileSystem)
    requires i < |names|
    ensures DirectoryInputs(dir, names[..i + 1], fs) == DirectoryInputs(dir, names[..i], fs) + EntryInputs(dir, names[i], fs)
  {
    assert names[..i + 1][..i] == names[..i];
  }

  /**
   * readInputsConfig as lines 110-125 intend: the main file's array, then
   * one definition per directory entry whose content parses to a truthy value.
   */
  method ReadInputsConfigIntended(inputsConfigFilePath: string, inputsConfigFilesDirectoryPath: string, fs: FileSystem)
    returns (r: Option<seq<Json>>)
    ensures r == Some(InputsConfigIntended(inputsConfigFilePath, inputsConfigFilesDirectoryPath, fs))
  {
    var inputsArray := MainFileInputs(inputsConfigFilePath, fs);
    if |inputsConfigFilesDirectoryPath| > 0 && inputsConfigFilesDirectoryPath in fs {
      var dirStats := fs[inputsConfigFilesDirectoryPath];
      if dirStats.Directory? {
        inputsArray := CollectDirectoryInputs(inputsConfigFilesDirectoryPath, dirStats.names, fs, inputsArray);
      } else {
        assert inputsArray == inputsArray + [];
      }
    } else {
      assert inputsArray == inputsArray + [];
    }
    r := Some(inputsArray);
  }

  /** The forEach over the directory listing: each entry read on its own, truthy results pushed in order. */
  method CollectDirectoryInputs(dir: string, names: seq<string>, fs: FileSystem, inputsArray: seq<Json>)
    returns (collected: seq<Json>)
    ensures collected == inputsArray + DirectoryInputs(dir, names, fs)
  {
    collected := inputsArray;
    var i := 0;
    assert names[..0] == [];
    while i < |names|
      invariant 0 <= i <= |names|
      invariant collected == inputsArray + DirectoryInputs(dir, names[..i], fs)
    {
      var individualInputConfig := ReadConfigFromFile(JoinPath(dir, names[i]), fs, false, false, false, false).result.value;
      if Truthy(individualInputConfig) {
        collected := collected + [individualInputConfig];
      }
      DirectoryInputsStep(dir, names, i, fs);
      i := i + 1;
    }
    assert names[..|names|] == names;
  }

  /** The discrepancy at line 108: an existing inputs directory with one valid definition yields undefined instead of that definition. */
  lemma InputsDirectoryDiscarded()
    ensures var input := JObj(map["baseDirectoryPath" := JStr("/var/log")]);
            var fs := map["/etc/inputs.d" := Directory(["a.json"]), "/etc/inputs.d/a.json" := File(Parsed(input))];
            && ReadInputsConfig("", "/etc/inputs.d", fs) == None
            && InputsConfigIntended("", "/etc/inputs.d", fs) == [input]
  {
    var input := JObj(map["baseDirectoryPath" := JStr("/var/log")]);
    var fs := map["/etc/inputs.d" := Directory(["a.json"]), "/etc/inputs.d/a.json" := File(Parsed(input))];
    assert JoinPath("/etc/inputs.d", "a.json") == "/etc/inputs.d/a.json";
    assert ["a.json"][..0] == [];
    assert DirectoryInputs("/etc/inputs.d", ["a.json"], fs) == [input];
  }
}
