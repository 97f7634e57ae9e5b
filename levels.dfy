/**
 * The level registry: the six pino severities, the number-to-name table
 * `LEVEL_NAMES`, the name-to-number table `LOG_LEVELS`, and `getLevelName`,
 * which reads the first table and falls back to `DEFAULT_LEVEL`.
 */
module Levels {

  /** `LogLevel`: the six level names, from least to most severe. */
  datatype LogLevel = Trace | Debug | Info | Warn | Error | Fatal

  /** The level's name as the transport writes and compares it. */
  function Name(l: LogLevel): string {
    match l
    case Trace => "trace"
    case Debug => "debug"
    case Info => "info"
    case Warn => "warn"
    case Error => "error"
    case Fatal => "fatal"
  }

  /** The six levels in ascending severity. */
  const ALL_LEVELS: seq<LogLevel> := [Trace, Debug, Info, Warn, Error, Fatal]

  /** `LEVEL_NAMES`: numeric level to level name. */
  const LEVEL_NAMES: map<real, LogLevel> :=
    map[10.0 := Trace, 20.0 := Debug, 30.0 := Info, 40.0 := Warn, 50.0 := Error, 60.0 := Fatal]

  /**
   * `LOG_LEVELS[name]`: level name to numeric level. The table has one entry
   * for each of the six names, so it is a total function on `LogLevel`.
   */
  function LogLevels(l: LogLevel): real {
    match l
    case Trace => 10.0
    case Debug => 20.0
    case Info => 30.0
    case Warn => 40.0
    case Error => 50.0
    case Fatal => 60.0
  }

  /**
   * `DEFAULT_LEVEL`, the fallback name. Its value is defined outside this
   * model; being a `LogLevel` it is one of the six names.
   */
  const DEFAULT_LEVEL: LogLevel

  /** `DEFAULT_LOG_LEVEL_VALUE`, the level assumed for a record without one. Its value is defined outside this model. */
  const DEFAULT_LOG_LEVEL_VALUE: real

  /**
   * `getLevelName(level)`: the table's name for one of the six numeric
   * levels, `DEFAULT_LEVEL` for every other number. It never fails.
   */
  function GetLevelName(level: real): (r: LogLevel)
    ensures level in LEVEL_NAMES ==> LogLevels(r) == level
    ensures level !in LEVEL_NAMES ==> r == DEFAULT_LEVEL
  {
    if level in LEVEL_NAMES then LEVEL_NAMES[level] else DEFAULT_LEVEL
  }

  /** `LEVEL_NAMES` has exactly the keys 10, 20, 30, 40, 50 and 60. */
  lemma LevelNamesKeys()
    ensures LEVEL_NAMES.Keys == {10.0, 20.0, 30.0, 40.0, 50.0, 60.0}
  {
  }

  /** `LOG_LEVELS` holds exactly the values 10, 20, 30, 40, 50 and 60, strictly increasing with severity. */
  lemma LogLevelsValues()
    ensures forall l :: LogLevels(l) in {10.0, 20.0, 30.0, 40.0, 50.0, 60.0}
    ensures forall i, j :: 0 <= i < j < |ALL_LEVELS| ==> LogLevels(ALL_LEVELS[i]) < LogLevels(ALL_LEVELS[j])
    ensures forall l :: l in ALL_LEVELS
  {
    forall l ensures l in ALL_LEVELS {
      match l
      case Trace => case Debug => case Info => case Warn => case Error => case Fatal =>
    }
  }

  /** Read in ascending key order, `LEVEL_NAMES` lists trace, debug, info, warn, error, fatal. */
  lemma LevelNamesAscending()
    ensures forall i :: 0 <= i < |ALL_LEVELS| ==> LogLevels(ALL_LEVELS[i]) == ((i + 1) * 10) as real
    ensures forall i :: 0 <= i < |ALL_LEVELS| ==> LEVEL_NAMES[LogLevels(ALL_LEVELS[i])] == ALL_LEVELS[i]
  {
  }

  /** Both tables are injective, and so are the names. */
  lemma TablesInjective()
    ensures forall a, b :: a != b ==> LogLevels(a) != LogLevels(b)
    ensures forall x, y :: x in LEVEL_NAMES && y in LEVEL_NAMES && x != y ==> LEVEL_NAMES[x] != LEVEL_NAMES[y]
    ensures forall a, b :: a != b ==> Name(a) != Name(b)
  {
  }

  /** The two tables are inverse to each other over the six levels. */
  lemma TablesInverse()
    ensures forall l :: LogLevels(l) in LEVEL_NAMES && LEVEL_NAMES[LogLevels(l)] == l
    ensures forall x :: x in LEVEL_NAMES ==> LogLevels(LEVEL_NAMES[x]) == x
  {
  }

  /** `getLevelName(LOG_LEVELS[n]) == n` for every level name `n`. */
  lemma GetLevelNameRoundTrip(l: LogLevel)
    ensures GetLevelName(LogLevels(l)) == l
  {
  }

  /** Each numeric level maps to its name; any other number, such as 999 or 10.5, to `DEFAULT_LEVEL`. */
  lemma GetLevelNameTable()
    ensures GetLevelName(10.0) == Trace && GetLevelName(20.0) == Debug && GetLevelName(30.0) == Info
    ensures GetLevelName(40.0) == Warn && GetLevelName(50.0) == Error && GetLevelName(60.0) == Fatal
    ensures GetLevelName(999.0) == DEFAULT_LEVEL && GetLevelName(10.5) == DEFAULT_LEVEL
  {
  }
}
