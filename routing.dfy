/** The writer registry Open builds and the outcome Write returns, as
    specification functions, and how they fit together after Connect. */
module Routing {
  import opened Types
  import opened Setting

  /** A FileWriter, known by the file newFileWriter built it for. */
  datatype FileWriter = FileWriter(filename: string)

  /** The registry Open assigns to connect.writers: one writer per level file,
      then the aggregate writer under MAX_LEVEL when there is an aggregate file. */
  function WritersFor(setting: FileLogSetting, maxLevel: Level): (writers: map<Level, FileWriter>)
    ensures writers.Keys == setting.LevelFiles.Keys + (if setting.File != "" then {maxLevel} else {})
    ensures setting.File != "" ==> writers[maxLevel] == FileWriter(setting.File)
    ensures forall level :: level in setting.LevelFiles && (setting.File == "" || level != maxLevel) ==>
      writers[level] == FileWriter(setting.LevelFiles[level])
  {
    var perLevel := LevelWriters(setting);
    if setting.File != "" then perLevel[maxLevel := FileWriter(setting.File)] else perLevel
  }

  /** One writer per level file. */
  function LevelWriters(setting: FileLogSetting): map<Level, FileWriter>
  {
    map level | level in setting.LevelFiles :: FileWriter(setting.LevelFiles[level])
  }

  /** The two write paths of Write. */
  datatype Path = Aggregate | PerLevel

  /** The paths that hand the record to a writer: a path must be started (an
      aggregate file, or any level file at all) and find its writer. */
  function Attempts(setting: FileLogSetting, writers: map<Level, FileWriter>, maxLevel: Level, level: Level): (paths: set<Path>)
    ensures Aggregate in paths <==> setting.File != "" && maxLevel in writers
    ensures PerLevel in paths <==> |setting.LevelFiles| != 0 && level in writers
  {
    (if setting.File != "" && maxLevel in writers then {Aggregate} else {})
      + (if |setting.LevelFiles| != 0 && level in writers then {PerLevel} else {})
  }

  /** What one path reports: nil unless it writes, else its writer's result. */
  function PathResult(attempted: bool, result: Outcome): (r: Outcome)
    ensures r.Fail? <==> attempted && result.Fail?
    ensures r.Fail? ==> r == result
  {
    if attempted then result else Nil
  }

  /** The error Write returns from the two path results: the aggregate error
      if there is one, else the level error. */
  function FirstError(access: Outcome, level: Outcome): (r: Outcome)
    ensures r.Nil? <==> access.Nil? && level.Nil?
    ensures access.Fail? ==> r == access
    ensures access.Nil? ==> r == level
  {
    if access.Fail? then access else level
  }

  /** The result of Write, given what each writer's write would return. */
  function WriteOutcome(setting: FileLogSetting, writers: map<Level, FileWriter>, maxLevel: Level, level: Level,
                        accessResult: Outcome, levelResult: Outcome): (r: Outcome)
    // an error is returned exactly when an attempted path failed
    ensures var paths := Attempts(setting, writers, maxLevel, level);
      r.Fail? <==> (Aggregate in paths && accessResult.Fail?) || (PerLevel in paths && levelResult.Fail?)
    // the aggregate error wins over the level error
    ensures Aggregate in Attempts(setting, writers, maxLevel, level) && accessResult.Fail? ==> r == accessResult
    // otherwise the level path's result, or nil when it is not attempted
    ensures var paths := Attempts(setting, writers, maxLevel, level);
      !(Aggregate in paths && accessResult.Fail?) ==> r == (if PerLevel in paths then levelResult else Nil)
    // no error is invented
    ensures r == Nil || r == accessResult || r == levelResult
  {
    var paths := Attempts(setting, writers, maxLevel, level);
    FirstError(PathResult(Aggregate in paths, accessResult), PathResult(PerLevel in paths, levelResult))
  }

  /** After Connect and Open, a record of a known level (other than MAX_LEVEL)
      always reaches its level writer, and the aggregate writer exactly when
      there is an aggregate file: no configured path finds its writer missing. */
  lemma WriteAfterOpen(env: Env, driverStore: string, s: Settings, level: Level, accessResult: Outcome, levelResult: Outcome)
    requires level in env.levels && level != env.maxLevel
    ensures var setting := Resolve(env, driverStore, s);
      var writers := WritersFor(setting, env.maxLevel);
      && Attempts(setting, writers, env.maxLevel, level) == {PerLevel} + (if setting.File != "" then {Aggregate} else {})
      && WriteOutcome(setting, writers, env.maxLevel, level, accessResult, levelResult)
         == FirstError(if setting.File != "" then accessResult else Nil, levelResult)
  {
    var setting := Resolve(env, driverStore, s);
    assert level in setting.LevelFiles;
    RoutedToLevelWriter(setting, env.maxLevel, level, accessResult, levelResult);
  }

  /** Over Open's registry, a level that has a file (and is not MAX_LEVEL) is
      always written to its level writer. */
  lemma RoutedToLevelWriter(setting: FileLogSetting, maxLevel: Level, level: Level, accessResult: Outcome, levelResult: Outcome)
    requires level in setting.LevelFiles && level != maxLevel
    ensures var writers := WritersFor(setting, maxLevel);
      && Attempts(setting, writers, maxLevel, level) == {PerLevel} + (if setting.File != "" then {Aggregate} else {})
      && WriteOutcome(setting, writers, maxLevel, level, accessResult, levelResult)
         == FirstError(if setting.File != "" then accessResult else Nil, levelResult)
  {
    assert |setting.LevelFiles| != 0;
  }

  /** After Connect and Open, a record whose level has no file reaches only the
      aggregate writer, and succeeds when there is no aggregate file. */
  lemma UnknownLevelWritesOnlyAggregate(env: Env, driverStore: string, s: Settings, level: Level, accessResult: Outcome, levelResult: Outcome)
    requires level !in env.levels && level != env.maxLevel
    ensures var setting := Resolve(env, driverStore, s);
      var writers := WritersFor(setting, env.maxLevel);
      && Attempts(setting, writers, env.maxLevel, level) == (if setting.File != "" then {Aggregate} else {})
      && WriteOutcome(setting, writers, env.maxLevel, level, accessResult, levelResult)
         == (if setting.File != "" then accessResult else Nil)
  {
  }

  /** A record whose level is MAX_LEVEL, with an aggregate file and some level
      file, takes both paths, and both find the aggregate writer. */
  lemma MaxLevelRecordWrittenTwice(setting: FileLogSetting, maxLevel: Level, accessResult: Outcome, levelResult: Outcome)
    requires setting.File != "" && |setting.LevelFiles| != 0
    ensures var writers := WritersFor(setting, maxLevel);
      && Attempts(setting, writers, maxLevel, maxLevel) == {Aggregate, PerLevel}
      && writers[maxLevel] == FileWriter(setting.File)
      && WriteOutcome(setting, writers, maxLevel, maxLevel, accessResult, levelResult) == FirstError(accessResult, levelResult)
  {
  }

  /** Open's registry has one writer per level, plus one more exactly when
      there is an aggregate file and MAX_LEVEL is not itself a level. */
  lemma RegistrySize(setting: FileLogSetting, maxLevel: Level)
    ensures |WritersFor(setting, maxLevel)| ==
      |setting.LevelFiles| + (if setting.File != "" && maxLevel !in setting.LevelFiles then 1 else 0)
  {
    var writers := WritersFor(setting, maxLevel);
    if setting.File != "" && maxLevel !in setting.LevelFiles {
      assert writers.Keys == setting.LevelFiles.Keys + {maxLevel};
      assert |writers.Keys| == |setting.LevelFiles.Keys| + 1;
    } else {
      assert writers.Keys == setting.LevelFiles.Keys;
    }
  }
}
