/**
 * The agent's own diagnostic logging (src/systemLogging.js): the two
 * severity tables, the case-normalising lookups between severity names and
 * integers, the threshold filter and the `timestamp | SEVERITY | message`
 * line that logToSystem writes to the console and to an append-only stream.
 *
 * Case mapping is that of ASCII letters; strings are sequences of code points.
 */
module SystemLogging {
  import opened JsValues

  const MinLevelInt := 1
  const MaxLevelInt := 6
  const DefaultLevelInt := 2  // Verbose
  const Eol := "\n"

  /** What `levelToInt[key]` yields when it is not undefined. */
  datatype LevelLookup =
    | Level(n: int)
      /** `levelToInt["__proto__"]` is the inherited Object.prototype, not a number. */
    | ObjectPrototype

  /** The object `levelToInt`, looked up by key: its own six entries and the inherited `__proto__`. */
  function LevelToIntEntry(key: string): Option<LevelLookup> {
    if key == "Debug" then Some(Level(1))
    else if key == "Verbose" then Some(Level(2))
    else if key == "Information" then Some(Level(3))
    else if key == "Warning" then Some(Level(4))
    else if key == "Error" then Some(Level(5))
    else if key == "Critical" then Some(Level(6))
    else if key == "__proto__" then Some(ObjectPrototype)
    else None
  }

  /** The object `intToLevel`, looked up by an integer key. */
  function IntToLevelEntry(i: int): Option<string> {
    if i == 1 then Some("Debug")
    else if i == 2 then Some("Verbose")
    else if i == 3 then Some("Information")
    else if i == 4 then Some("Warning")
    else if i == 5 then Some("Error")
    else if i == 6 then Some("Critical")
    else None
  }

  /** `defaultLevel` is `levelToInt[2]`: the name table indexed by a number, hence undefined (None; see DefaultLevelUndefined). */
  const DefaultLevel: Option<string> := None

  /** The name table has no entry under the key "2", so `levelToInt[defaultLevelInt]` is undefined. */
  lemma DefaultLevelUndefined()
    ensures LevelToIntEntry(IntText(DefaultLevelInt)).None?
  {
  }

  function LowerChar(c: char): char {
    if 'A' <= c <= 'Z' then (c as int + 32) as char else c
  }

  function UpperChar(c: char): char {
    if 'a' <= c <= 'z' then (c as int - 32) as char else c
  }

  function LowerAll(s: string): string {
    seq(|s|, i requires 0 <= i < |s| => LowerChar(s[i]))
  }

  function UpperAll(s: string): string {
    seq(|s|, i requires 0 <= i < |s| => UpperChar(s[i]))
  }

  /** `charAt(0).toUpperCase() + slice(1).toLowerCase()`. */
  function Normalize(s: string): string
    requires |s| > 0
  {
    [UpperChar(s[0])] + LowerAll(s[1..])
  }

  /** getLevelToInt: the level of a severity name, whatever its case; 2 when the name is undefined, empty or unknown. */
  function GetLevelToInt(level: Option<string>): (r: LevelLookup)
    ensures r.Level? ==> MinLevelInt <= r.n <= MaxLevelInt
    ensures !NonEmpty(level) ==> r == Level(DefaultLevelInt)
  {
    if NonEmpty(level) then
      match LevelToIntEntry(Normalize(level.value))
      case Some(v) => v
      case None => Level(DefaultLevelInt)
    else
      Level(DefaultLevelInt)
  }

  /** getIntToLevel as written: the name of a level in 1..6, else `defaultLevel`, which is undefined. */
  function GetIntToLevel(level: Option<int>): (r: Option<string>)
    ensures r.Some? <==> level.Some? && MinLevelInt <= level.value <= MaxLevelInt
  {
    if level.Some? && MinLevelInt <= level.value <= MaxLevelInt then
      match IntToLevelEntry(level.value)
      case Some(name) => Some(name)
      case None => DefaultLevel
    else
      DefaultLevel
  }

  /** getIntToLevel with `defaultLevel` read from the integer table, as the name `defaultLevel` intends. */
  function GetIntToLevelIntended(level: Option<int>): (r: string)
    ensures level.Some? && MinLevelInt <= level.value <= MaxLevelInt ==>
              Some(r) == GetIntToLevel(level) && GetLevelToInt(Some(r)) == Level(level.value)
    ensures !(level.Some? && MinLevelInt <= level.value <= MaxLevelInt) ==>
              r == "Verbose" && GetLevelToInt(Some(r)) == Level(DefaultLevelInt)
  {
    var r := if level.Some? && MinLevelInt <= level.value <= MaxLevelInt then IntToLevelEntry(level.value).value
             else IntToLevelEntry(DefaultLevelInt).value;
    var i := if level.Some? && MinLevelInt <= level.value <= MaxLevelInt then level.value else DefaultLevelInt;
    NameRoundTrip(i);
    r
  }

  /**
   * A key that Normalize leaves alone and that no other case spelling can
   * reach differently: a first character that is not a lower-case letter,
   * then no upper-case letters.
   */
  predicate Canonical(n: string) {
    && |n| > 0
    && !('a' <= n[0] <= 'z')
    && forall i :: 1 <= i < |n| ==> !('A' <= n[i] <= 'Z')
  }

  lemma FirstCharMatches(c: char, d: char)
    requires !('a' <= d <= 'z')
    ensures UpperChar(c) == d <==> LowerChar(c) == LowerChar(d)
  {
  }

  /** Normalize(s) is a canonical key exactly when s spells that key in some mix of cases. */
  lemma NormalizeMatchesCanonical(s: string, n: string)
    requires |s| > 0 && Canonical(n)
    ensures Normalize(s) == n <==> LowerAll(s) == LowerAll(n)
  {
    if Normalize(s) == n {
      assert |s| == |n|;
      forall i | 0 <= i < |s| ensures LowerAll(s)[i] == LowerAll(n)[i] {
        if i == 0 {
          FirstCharMatches(s[0], n[0]);
        } else {
          assert Normalize(s)[i] == LowerChar(s[i]);
        }
      }
    }
    if LowerAll(s) == LowerAll(n) {
      assert |s| == |n|;
      forall i | 0 <= i < |s| ensures Normalize(s)[i] == n[i] {
        assert LowerAll(s)[i] == LowerAll(n)[i];
        if i == 0 {
          FirstCharMatches(s[0], n[0]);
        } else {
          assert Normalize(s)[i] == LowerChar(s[i]);
        }
      }
    }
  }

  /** Each level name is canonical, and looking it up gives its own level back. */
  lemma NameRoundTrip(i: int)
    requires MinLevelInt <= i <= MaxLevelInt
    ensures IntToLevelEntry(i).Some? && Canonical(IntToLevelEntry(i).value)
    ensures GetLevelToInt(IntToLevelEntry(i)) == Level(i)
  {
    var n := IntToLevelEntry(i).value;
    NormalizeMatchesCanonical(n, n);
  }

  /** getLevelToInt(getIntToLevel(i)) == i on 1..6; outside it the undefined name maps to the default level. */
  lemma LevelRoundTrip(i: int)
    ensures MinLevelInt <= i <= MaxLevelInt ==> GetLevelToInt(GetIntToLevel(Some(i))) == Level(i)
    ensures !(MinLevelInt <= i <= MaxLevelInt) ==> GetLevelToInt(GetIntToLevel(Some(i))) == Level(DefaultLevelInt)
  {
    if MinLevelInt <= i <= MaxLevelInt {
      NameRoundTrip(i);
    }
  }

  /**
   * getLevelToInt is case-insensitive over the six names: any spelling of
   * level i's name gives i, and (other than for the default level) nothing
   * else gives i.
   */
  lemma LevelToIntCaseInsensitive(s: string, i: int)
    requires MinLevelInt <= i <= MaxLevelInt
    ensures LowerAll(s) == LowerAll(IntToLevelEntry(i).value) ==> GetLevelToInt(Some(s)) == Level(i)
    ensures i != DefaultLevelInt && GetLevelToInt(Some(s)) == Level(i) ==>
              LowerAll(s) == LowerAll(IntToLevelEntry(i).value)
  {
    NameRoundTrip(i);
    var n := IntToLevelEntry(i).value;
    if |s| > 0 {
      NormalizeMatchesCanonical(s, n);
    }
  }

  /** The one key that escapes the integer range: any spelling of "__proto__" finds Object.prototype. */
  lemma LevelToIntPrototypeKey(s: string)
    ensures GetLevelToInt(Some(s)) == ObjectPrototype <==> LowerAll(s) == "__proto__"
  {
    assert Canonical("__proto__");
    if |s| > 0 {
      NormalizeMatchesCanonical(s, "__proto__");
      assert LowerAll("__proto__") == "__proto__";
    }
  }

  /** The process environment logToSystem reads: `logLevel` as the number JavaScript compares it as (None for undefined or NaN). */
  datatype Env = Env(logLevel: Option<real>, logFilePath: Option<string>, logForceToConsole: Option<string>)

  /** The minimum level emitted: the environment's logLevel when it lies in [1, 6], else 2. */
  function Threshold(env: Env): real {
    if env.logLevel.Some? && MinLevelInt as real <= env.logLevel.value <= MaxLevelInt as real
    then env.logLevel.value
    else DefaultLevelInt as real
  }

  /**
   * The upper-cased severity logToSystem prints for this call, or None when
   * it prints nothing: the severity and the message must both be non-empty
   * and the level must reach the threshold.
   */
  function EmittedSeverity(severity: Option<string>, message: Option<string>, env: Env): (r: Option<string>)
    ensures r.Some? ==> NonEmpty(severity) && NonEmpty(message)
    ensures r.Some? ==> exists i :: MinLevelInt <= i <= MaxLevelInt && GetLevelToInt(severity) == Level(i) && i as real >= Threshold(env)
    ensures r.Some? ==> GetLevelToInt(Some(r.value)) == GetLevelToInt(severity)
    ensures NonEmpty(severity) && NonEmpty(message) && GetLevelToInt(severity).Level?
            && GetLevelToInt(severity).n as real >= Threshold(env)
            ==> r == Some(UpperAll(IntToLevelEntry(GetLevelToInt(severity).n).value))
  {
    if NonEmpty(severity) && NonEmpty(message) then
      match GetLevelToInt(severity)
      // Object.prototype compares as NaN: never at or above the threshold
      case ObjectPrototype => None
      case Level(n) =>
        if n as real >= Threshold(env) then
          var name := GetIntToLevel(Some(n)).value;
          NameRoundTrip(n);
          UpperKeepsLevel(name, n);
          Some(UpperAll(name))
        else None
    else None
  }

  lemma CharCaseAgrees(c: char, d: char)
    requires LowerChar(c) == LowerChar(d)
    ensures UpperChar(c) == UpperChar(d)
  {
  }

  /** getLevelToInt depends on nothing but the lower-cased spelling of the name. */
  lemma LevelDependsOnLowerCase(s: string, t: string)
    requires LowerAll(s) == LowerAll(t)
    ensures GetLevelToInt(Some(s)) == GetLevelToInt(Some(t))
  {
    assert |s| == |t|;
    if |s| > 0 {
      assert LowerAll(s)[0] == LowerAll(t)[0];
      CharCaseAgrees(s[0], t[0]);
      assert LowerAll(s[1..]) == LowerAll(s)[1..];
      assert LowerAll(t[1..]) == LowerAll(t)[1..];
      assert Normalize(s) == Normalize(t);
    }
  }

  lemma UpperKeepsLevel(name: string, n: int)
    requires MinLevelInt <= n <= MaxLevelInt && GetLevelToInt(Some(name)) == Level(n)
    ensures GetLevelToInt(Some(UpperAll(name))) == Level(n)
  {
    assert LowerAll(UpperAll(name)) == LowerAll(name);
    LevelDependsOnLowerCase(UpperAll(name), name);
  }

  /** A message at a higher level than one that is emitted is emitted too. */
  lemma EmissionMonotone(s1: string, s2: string, message: Option<string>, env: Env)
    requires EmittedSeverity(Some(s1), message, env).Some?
    requires |s2| > 0 && GetLevelToInt(Some(s2)).Level? && GetLevelToInt(Some(s2)).n >= GetLevelToInt(Some(s1)).n
    ensures EmittedSeverity(Some(s2), message, env).Some?
  {
  }

  /** Critical messages always pass the threshold; Debug ones only when logLevel is exactly 1. */
  lemma ThresholdBounds(message: string, env: Env)
    requires |message| > 0
    ensures EmittedSeverity(Some("critical"), Some(message), env) == Some("CRITICAL")
    ensures EmittedSeverity(Some("Debug"), Some(message), env).Some? <==> env.logLevel == Some(1.0)
  {
    LevelToIntCaseInsensitive("critical", 6);
    LevelToIntCaseInsensitive("Debug", 1);
    NameRoundTrip(6);
    NameRoundTrip(1);
    assert UpperAll("Critical") == "CRITICAL";
  }

  /** Whether the line is echoed: `copyToConsole === true || copyToConsole === 'true'`, the argument defaulting to `process.env.logForceToConsole`. */
  predicate ConsoleEnabled(copyToConsole: Option<Json>, env: Env) {
    match copyToConsole
    case Some(v) => v == JBool(true) || v == JStr("true")
    case None => env.logForceToConsole == Some("true")
  }

  /** The text both outputs carry: `timestamp | SEVERITY | message`. */
  function LineText(timestamp: string, severity: string, message: string): string {
    timestamp + " | " + severity + " | " + message
  }

  /** One `logStream.write`: the file the stream appends to and the text written. */
  datatype StreamWrite = StreamWrite(path: string, text: string)

  /** The module-level write stream and everything logged so far. */
  class SystemLog {
    /** The file `logStream` appends to; None while it is undefined. */
    var logStream: Option<string>
    var consoleLines: seq<string>
    var streamWrites: seq<StreamWrite>

    constructor ()
      ensures logStream == None && consoleLines == [] && streamWrites == []
    {
      logStream := None;
      consoleLines := [];
      streamWrites := [];
    }

    /**
     * openStream: a stream appending to `path` replaces the current one when
     * it can be created; `created` is whether fs.createWriteStream succeeded.
     */
    method OpenStream(path: string, created: bool)
      modifies this`logStream
      ensures logStream == if created then Some(path) else old(logStream)
    {
      if created {
        logStream := Some(path);
      }
    }

    /**
     * logToSystem. `now` is `new Date().toISOString()`; `streamCreated` is
     * whether fs.createWriteStream succeeds should a stream have to be opened.
     * Nothing escapes: a write without a stream is swallowed by the catch.
     */
    method LogToSystem(severity: Option<string>, message: Option<string>, copyToConsole: Option<Json>,
                       env: Env, now: string, streamCreated: bool)
      modifies this
      ensures var sev := EmittedSeverity(severity, message, env);
              var toFile := sev.Some? && NonEmpty(env.logFilePath);
              && consoleLines == old(consoleLines) +
                   (if sev.Some? && ConsoleEnabled(copyToConsole, env) then [LineText(now, sev.value, message.value)] else [])
              && logStream == (if toFile && old(logStream).None? && streamCreated then env.logFilePath else old(logStream))
              && streamWrites == old(streamWrites) +
                   (if toFile && logStream.Some? then [StreamWrite(logStream.value, LineText(now, sev.value, message.value) + Eol)] else [])
      ensures old(logStream).Some? ==> logStream == old(logStream)
    {
      if NonEmpty(severity) && NonEmpty(message) {
        var outSeverityInt := GetLevelToInt(severity);
        if outSeverityInt.Level? && outSeverityInt.n as real >= Threshold(env) {
          var outSeverity := UpperAll(GetIntToLevel(Some(outSeverityInt.n)).value);
          assert EmittedSeverity(severity, message, env) == Some(outSeverity);
          if ConsoleEnabled(copyToConsole, env) {
            consoleLines := consoleLines + [LineText(now, outSeverity, message.value)];
          }
          if NonEmpty(env.logFilePath) {
            if logStream.None? {
              OpenStream(env.logFilePath.value, streamCreated);
            }
            if logStream.Some? {
              streamWrites := streamWrites + [StreamWrite(logStream.value, LineText(now, outSeverity, message.value) + Eol)];
            }
          }
        }
      }
    }
  }
}
