/**
 * `shouldSendLog`: whether a record is forwarded, under a minimum level, an
 * allow-list (`onlyLevels`) and a deny-list (`excludeLevels`).
 */
module Filter {
  import opened Js
  import opened Levels
  import opened LogRecords

  /** The numeric level a record is judged by: its own, or the default when it has none. */
  function EffectiveLevel(log: LogEntry): real {
    log.level.GetOr(DEFAULT_LOG_LEVEL_VALUE)
  }

  /** The level name a record is judged by. */
  function EffectiveName(log: LogEntry): LogLevel {
    GetLevelName(EffectiveLevel(log))
  }

  /** `list && list.length > 0`. */
  predicate NonEmpty(list: Option<seq<LogLevel>>) {
    list.Some? && |list.value| > 0
  }

  /** `list && list.includes(l)`. */
  predicate Lists(list: Option<seq<LogLevel>>, l: LogLevel) {
    list.Some? && l in list.value
  }

  /**
   * `shouldSendLog({log, minLevelName, onlyLevels, excludeLevels})`.
   * A non-empty `onlyLevels` decides alone, ignoring `minLevelName`;
   * otherwise the record's level must reach `minLevelName`'s value when one is
   * given. On both paths a level listed in `excludeLevels` is refused.
   */
  function ShouldSendLog(log: LogEntry, minLevelName: Option<LogLevel>,
                         onlyLevels: Option<seq<LogLevel>>, excludeLevels: Option<seq<LogLevel>>): (r: bool)
    ensures Lists(excludeLevels, EffectiveName(log)) ==> !r
    ensures NonEmpty(onlyLevels) ==>
      (r <==> EffectiveName(log) in onlyLevels.value && !Lists(excludeLevels, EffectiveName(log)))
    ensures !NonEmpty(onlyLevels) ==>
      (r <==> (minLevelName.None? || EffectiveLevel(log) >= LogLevels(minLevelName.value))
              && !Lists(excludeLevels, EffectiveName(log)))
  {
    var logLevel := log.level.GetOr(DEFAULT_LOG_LEVEL_VALUE);
    var logLevelName := GetLevelName(logLevel);
    if onlyLevels.Some? && |onlyLevels.value| > 0 then
      var shouldInclude := logLevelName in onlyLevels.value;
      if excludeLevels.Some? && logLevelName in excludeLevels.value then false
      else shouldInclude
    else
      var shouldIncludeByLevel :=
        if minLevelName.Some? then logLevel >= LogLevels(minLevelName.value) else true;
      if excludeLevels.Some? && logLevelName in excludeLevels.value then false
      else shouldIncludeByLevel
  }

  /** An empty `onlyLevels` list behaves exactly like an absent one. */
  lemma EmptyOnlyLevelsIsAbsent(log: LogEntry, minLevelName: Option<LogLevel>, excludeLevels: Option<seq<LogLevel>>)
    ensures ShouldSendLog(log, minLevelName, Some([]), excludeLevels)
         == ShouldSendLog(log, minLevelName, None, excludeLevels)
  {
  }

  /** With a non-empty `onlyLevels`, the minimum level plays no part. */
  lemma OnlyLevelsIgnoresMinimum(log: LogEntry, min1: Option<LogLevel>, min2: Option<LogLevel>,
                                 onlyLevels: seq<LogLevel>, excludeLevels: Option<seq<LogLevel>>)
    requires |onlyLevels| > 0
    ensures ShouldSendLog(log, min1, Some(onlyLevels), excludeLevels)
         == ShouldSendLog(log, min2, Some(onlyLevels), excludeLevels)
  {
  }

  /** With neither `onlyLevels` nor `minLevelName`, every record that is not excluded is sent. */
  lemma NoPolicySendsAllNotExcluded(log: LogEntry, excludeLevels: Option<seq<LogLevel>>)
    ensures ShouldSendLog(log, None, None, excludeLevels) <==> !Lists(excludeLevels, EffectiveName(log))
  {
  }

  /** A record without a level is judged exactly as one at `DEFAULT_LOG_LEVEL_VALUE`. */
  lemma MissingLevelIsDefault(log: LogEntry, minLevelName: Option<LogLevel>,
                              onlyLevels: Option<seq<LogLevel>>, excludeLevels: Option<seq<LogLevel>>)
    requires log.level.None?
    ensures ShouldSendLog(log, minLevelName, onlyLevels, excludeLevels)
         == ShouldSendLog(log.(level := Some(DEFAULT_LOG_LEVEL_VALUE)), minLevelName, onlyLevels, excludeLevels)
  {
  }

  /**
   * Under the minimum-level path with no deny-list, raising the record's level
   * never turns a pass into a fail.
   */
  lemma RaisingLevelKeepsPass(log: LogEntry, higher: real, minLevelName: Option<LogLevel>)
    requires EffectiveLevel(log) <= higher
    requires ShouldSendLog(log, minLevelName, None, None)
    ensures ShouldSendLog(log.(level := Some(higher)), minLevelName, None, None)
  {
  }

  /**
   * Under the minimum-level path, lowering the minimum never turns a pass
   * into a fail, whatever the deny-list.
   */
  lemma LoweringMinimumKeepsPass(log: LogEntry, min: LogLevel, lower: LogLevel,
                                 excludeLevels: Option<seq<LogLevel>>)
    requires LogLevels(lower) <= LogLevels(min)
    requires ShouldSendLog(log, Some(min), None, excludeLevels)
    ensures ShouldSendLog(log, Some(lower), None, excludeLevels)
  {
  }

  /** The three examples of the function's documentation. */
  lemma DocumentedExamples()
    ensures var log := LogEntry(Undefined, Some(50.0), Some("Error occurred"), Undefined, []);
      && ShouldSendLog(log, Some(Warn), None, None)
      && ShouldSendLog(log, None, Some([Error, Fatal]), None)
      && !ShouldSendLog(log, Some(Info), None, Some([Error]))
  {
  }

  /** A level listed in both `onlyLevels` and `excludeLevels` is refused; an info record is refused at minimum warn. */
  lemma ExcludeWinsExamples()
    ensures !ShouldSendLog(LogEntry(Undefined, Some(50.0), None, Undefined, []), None, Some([Error]), Some([Error]))
    ensures !ShouldSendLog(LogEntry(Undefined, Some(30.0), None, Undefined, []), Some(Warn), None, None)
  {
  }
}
