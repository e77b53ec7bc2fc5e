/** The application logger: a level chosen once from the environment, and
    level-gated debug, info, warn and error calls that prefix their
    arguments with a timestamp and the level name. The environment
    variables and the timestamp are parameters; what reaches the console is
    returned as the calls that would be made. */
module Logger {
  import opened JsBuiltins

  const Debug := 0
  const Info := 1
  const Warn := 2
  const Error := 3
  const Silent := 4

  /** The keys of `LOG_LEVELS`, each at the index of its level. */
  const LevelNames: seq<string> := ["DEBUG", "INFO", "WARN", "ERROR", "NONE"]

  /** `LOG_LEVELS[name]`: the level a name stands for, if any. */
  function LevelOf(name: string): (r: Option<int>)
    ensures r.Some? <==> name in LevelNames
    ensures r.Some? ==> 0 <= r.value < |LevelNames| && LevelNames[r.value] == name
  {
    if name == "DEBUG" then Some(Debug)
    else if name == "INFO" then Some(Info)
    else if name == "WARN" then Some(Warn)
    else if name == "ERROR" then Some(Error)
    else if name == "NONE" then Some(Silent)
    else None
  }

  /** The level used when no override applies. */
  function DefaultLevel(nodeEnv: Option<string>): int
  {
    var env := if nodeEnv.Some? && nodeEnv.value != "" then nodeEnv.value else "development";
    if env == "production" then Warn else Debug
  }

  /** `getLogLevel`, given `NODE_ENV` and `VUE_APP_LOG_LEVEL` (`None` when
      unset). */
  function GetLogLevel(nodeEnv: Option<string>, logLevelEnv: Option<string>): (r: int)
    ensures 0 <= r < |LevelNames|
    ensures logLevelEnv.Some? && LevelOf(ToUpper(logLevelEnv.value)).Some? ==>
              LevelNames[r] == ToUpper(logLevelEnv.value)
    ensures (logLevelEnv.None? || LevelOf(ToUpper(logLevelEnv.value)).None?) ==>
              r == (if nodeEnv == Some("production") then Warn else Debug)
  {
    if logLevelEnv.Some? && logLevelEnv.value != "" && LevelOf(ToUpper(logLevelEnv.value)).Some? then
      LevelOf(ToUpper(logLevelEnv.value)).value
    else
      DefaultLevel(nodeEnv)
  }

  /** An override is read without regard to case. */
  lemma OverrideIgnoresCase(nodeEnv: Option<string>, name: string)
    requires name == "warn" || name == "Warn" || name == "WARN"
    ensures GetLogLevel(nodeEnv, Some(name)) == Warn
  {
    var u := ToUpper(name);
    assert |u| == 4 && u[0] == 'W' && u[1] == 'A' && u[2] == 'R' && u[3] == 'N';
    assert u == "WARN";
  }

  /** Without an override, production logs warnings and errors only, and
      anything else, a missing or empty `NODE_ENV` included, logs
      everything. */
  lemma DefaultLevels(logLevelEnv: Option<string>)
    requires logLevelEnv.None? || logLevelEnv == Some("") || logLevelEnv == Some("verbose")
    ensures GetLogLevel(Some("production"), logLevelEnv) == Warn
    ensures GetLogLevel(None, logLevelEnv) == Debug
    ensures GetLogLevel(Some(""), logLevelEnv) == Debug
    ensures GetLogLevel(Some("test"), logLevelEnv) == Debug
  {
    if logLevelEnv == Some("verbose") {
      assert ToUpper("verbose") !in LevelNames by {
        var u := ToUpper("verbose");
        assert |u| == 7;
      }
    }
  }

  /** `shouldLog`. */
  function ShouldLog(current: int, level: int): bool
  {
    level >= current
  }

  /** A level that is logged makes every more severe level logged too. */
  lemma ShouldLogMonotone(current: int, level: int, higher: int)
    requires level <= higher
    ensures ShouldLog(current, level) ==> ShouldLog(current, higher)
    ensures !ShouldLog(current, higher) ==> !ShouldLog(current, level)
  {
  }

  /** `formatMessage`: a "[timestamp] [LEVEL]" prefix followed by the
      arguments as given. */
  function FormatMessage(level: string, args: seq<Value>, timestamp: string): (r: seq<Value>)
    ensures |r| == |args| + 1
    ensures r[1..] == args
    ensures r[0].Str? && r[0].s == "[" + timestamp + "] [" + level + "]"
  {
    [Str("[" + timestamp + "] [" + level + "]")] + args
  }

  /** One console call: the console method and its arguments. */
  datatype ConsoleCall = ConsoleCall(consoleMethod: string, args: seq<Value>)

  /** What a gated method sends to the console. */
  function Emit(current: int, level: int, args: seq<Value>, timestamp: string): (calls: seq<ConsoleCall>)
    requires 0 <= level < Silent
    ensures |calls| <= 1
    ensures calls != [] <==> ShouldLog(current, level)
    ensures calls != [] ==> calls[0].args == FormatMessage(LevelNames[level], args, timestamp)
    ensures calls != [] ==> calls[0].consoleMethod == ToLower(LevelNames[level])
  {
    if ShouldLog(current, level) then
      [ConsoleCall(ToLower(LevelNames[level]), FormatMessage(LevelNames[level], args, timestamp))]
    else []
  }

  function DebugCalls(current: int, args: seq<Value>, timestamp: string): seq<ConsoleCall>
  {
    Emit(current, Debug, args, timestamp)
  }

  function InfoCalls(current: int, args: seq<Value>, timestamp: string): seq<ConsoleCall>
  {
    Emit(current, Info, args, timestamp)
  }

  function WarnCalls(current: int, args: seq<Value>, timestamp: string): seq<ConsoleCall>
  {
    Emit(current, Warn, args, timestamp)
  }

  function ErrorCalls(current: int, args: seq<Value>, timestamp: string): seq<ConsoleCall>
  {
    Emit(current, Error, args, timestamp)
  }

  /** `log` forwards to `info`. */
  function LogCalls(current: int, args: seq<Value>, timestamp: string): (calls: seq<ConsoleCall>)
    ensures calls == InfoCalls(current, args, timestamp)
  {
    InfoCalls(current, args, timestamp)
  }

  /** At level NONE nothing is logged. */
  lemma SilentSuppressesAll(args: seq<Value>, timestamp: string)
    ensures DebugCalls(Silent, args, timestamp) == []
    ensures InfoCalls(Silent, args, timestamp) == []
    ensures WarnCalls(Silent, args, timestamp) == []
    ensures ErrorCalls(Silent, args, timestamp) == []
    ensures LogCalls(Silent, args, timestamp) == []
  {
  }

  /** At a level chosen from the environment, a call is made exactly when its
      level is at least the chosen one. */
  lemma GatingFollowsLevel(nodeEnv: Option<string>, logLevelEnv: Option<string>, level: int, args: seq<Value>, timestamp: string)
    requires 0 <= level < Silent
    ensures var current := GetLogLevel(nodeEnv, logLevelEnv);
            Emit(current, level, args, timestamp) != [] <==> level >= current
  {
  }

  /** In production without an override, warnings and errors are printed and
      debug and info messages are not. */
  lemma ProductionGating(args: seq<Value>, timestamp: string)
    ensures var current := GetLogLevel(Some("production"), None);
            && DebugCalls(current, args, timestamp) == []
            && InfoCalls(current, args, timestamp) == []
            && |WarnCalls(current, args, timestamp)| == 1
            && |ErrorCalls(current, args, timestamp)| == 1
  {
  }
}
