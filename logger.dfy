/** The file log driver and its connection: Connect fills a setting step by
    step, Open fills the writer registry, Write routes one record. Each is
    proved against the specification functions of Setting and Routing. */
module Logger {
  import opened Types
  import opened Setting
  import opened Routing

  /** The `for level, name := range levels` loop of Connect: gives every level
      its file, in whatever order the range visits the levels. */
  method ResolveLevelFiles(env: Env, dir: string, s: Settings) returns (levelFiles: map<Level, string>)
    ensures levelFiles == LevelFilesOf(env, dir, s)
  {
    levelFiles := map[];
    var todo := env.levels.Keys;
    while todo != {}
      invariant forall level :: level in todo ==> level in env.levels
      invariant forall level :: level in levelFiles <==> level in env.levels && level !in todo
      invariant forall level :: level in env.levels && level !in todo ==>
        levelFiles[level] == LevelFileOf(env, dir, s, level)
      decreases todo
    {
      NonEmptyHasMember(todo);
      var level :| level in todo;
      var key := env.lower(env.levels[level]);
      var file := key + ".log";
      var v := Lookup(s, key);
      if v.IsNonEmptyString() {
        levelFiles := levelFiles[level := v.str];
      } else if v.IsTrue() {
        levelFiles := levelFiles[level := env.join(dir, file)];
      } else {
        levelFiles := levelFiles[level := env.join(dir, file)];
      }
      todo := todo - {level};
    }
    forall level ensures (level in levelFiles <==> level in LevelFilesOf(env, dir, s))
                      && (level in levelFiles ==> levelFiles[level] == LevelFilesOf(env, dir, s)[level]) {
    }
  }

  /** fileLogDriver. */
  class FileLogDriver {
    const store: string   // the driver's default store directory
    const env: Env

    constructor (store: string, env: Env)
      ensures this.store == store && this.env == env
    {
      this.store := store;
      this.env := env;
    }

    /** Resolves the settings map into a fileLogSetting and returns an
        unopened connection; it never fails. */
    method Connect(config: LogConfig) returns (connect: FileLogConnect, err: Outcome)
      ensures fresh(connect)
      ensures connect.env == env && connect.config == config && connect.writers == map[]
      ensures connect.setting == Resolve(env, store, config.Setting)
      ensures err == Nil
    {
      var s := config.Setting;
      var dir := store;
      var storeValue := Lookup(s, "store");
      if storeValue.IsNonEmptyString() {
        dir := storeValue.str;
      }
      assert dir == StoreOf(store, s);
      // os.Stat / os.MkdirAll on dir: file-system effects, not modelled

      var setting := DefaultSetting();
      var levelFiles := ResolveLevelFiles(env, dir, s);
      setting := setting.(LevelFiles := levelFiles);

      var output := Lookup(s, "output");
      if output.IsNonEmptyString() {
        setting := setting.(File := output.str);
      } else if output.IsTrue() {
        setting := setting.(File := env.join(dir, "output.log"));
      }
      assert setting.File == OutputOf(env, dir, s);

      var maxsize := Lookup(s, "maxsize");
      if maxsize.IsNonEmptyString() {
        var size := env.parseSize(maxsize.str);
        if size > 0 {
          setting := setting.(MaxSize := size);
        }
      } else if maxsize.IsPositiveInt() {
        setting := setting.(MaxSize := maxsize.i);
      } else if Lookup(s, "weight").IsPositiveInt() {
        setting := setting.(MaxSize := Lookup(s, "weight").i);
      }
      assert setting.MaxSize == MaxSizeOf(env, s);

      if Lookup(s, "maxline").IsPositiveInt() {
        setting := setting.(MaxLine := Lookup(s, "maxline").i);
      } else if Lookup(s, "height").IsPositiveInt() {
        setting := setting.(MaxLine := Lookup(s, "height").i);
      }
      assert setting.MaxLine == MaxLineOf(s);

      var slice := Lookup(s, "slice");
      if slice.IsNonEmptyString() {
        setting := setting.(DateSlice := env.checkSlice(slice.str));
      }
      assert setting == FileLogSetting(OutputOf(env, dir, s), LevelFilesOf(env, dir, s), MaxSizeOf(env, s), MaxLineOf(s), SliceOf(env, s));

      connect := new FileLogConnect(env, config, setting);
      err := Nil;
    }
  }

  /** fileLogConnect. */
  class FileLogConnect {
    const env: Env
    const config: LogConfig
    const setting: FileLogSetting
    var writers: map<Level, FileWriter>

    constructor (env: Env, config: LogConfig, setting: FileLogSetting)
      ensures this.env == env && this.config == config && this.setting == setting
      ensures writers == map[]
    {
      this.env := env;
      this.config := config;
      this.setting := setting;
      writers := map[];
    }

    /** Builds the writer registry: one writer per level file, and the
        aggregate writer under MAX_LEVEL; it never fails. */
    method Open() returns (err: Outcome)
      modifies this`writers
      ensures writers == WritersFor(setting, env.maxLevel)
      ensures err == Nil
    {
      var registry: map<Level, FileWriter> := map[];
      if |setting.LevelFiles| > 0 {
        var todo := setting.LevelFiles.Keys;
        while todo != {}
          invariant forall level :: level in todo ==> level in setting.LevelFiles
          invariant forall level :: level in registry <==> level in setting.LevelFiles && level !in todo
          invariant forall level :: level in setting.LevelFiles && level !in todo ==>
            registry[level] == FileWriter(setting.LevelFiles[level])
          decreases todo
        {
          NonEmptyHasMember(todo);
          var level :| level in todo;
          // writer.init(): opening the file is I/O, not modelled
          registry := registry[level := FileWriter(setting.LevelFiles[level])];
          todo := todo - {level};
        }
      } else {
        assert setting.LevelFiles.Keys == {};
      }
      forall level ensures (level in registry <==> level in LevelWriters(setting))
                        && (level in registry ==> registry[level] == LevelWriters(setting)[level]) {
      }
      assert registry == LevelWriters(setting);
      if setting.File != "" {
        registry := registry[env.maxLevel := FileWriter(setting.File)];
      }
      writers := registry;
      err := Nil;
    }

    /** Hands the record to the aggregate writer and to its level's writer and
        combines their results. accessResult and levelResult are what the two
        writers' write would return; attempted names the paths that call it. */
    method Write(log: Log, accessResult: Outcome, levelResult: Outcome) returns (err: Outcome, ghost attempted: set<Path>)
      ensures attempted == Attempts(setting, writers, env.maxLevel, log.Level)
      ensures err == WriteOutcome(setting, writers, env.maxLevel, log.Level, accessResult, levelResult)
    {
      attempted := {};
      var accessErr := Nil;
      var levelErr := Nil;
      if setting.File != "" {
        if env.maxLevel in writers {
          attempted := attempted + {Aggregate};
          if accessResult.Fail? {
            accessErr := accessResult;
          }
        }
      }
      if |setting.LevelFiles| != 0 {
        if log.Level in writers {
          attempted := attempted + {PerLevel};
          if levelResult.Fail? {
            levelErr := levelResult;
          }
        }
      }
      if accessErr.Fail? {
        return accessErr, attempted;
      }
      if levelErr.Fail? {
        return levelErr, attempted;
      }
      return Nil, attempted;
    }
  }
}
