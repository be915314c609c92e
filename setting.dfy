/** How fileLogDriver.Connect turns the loosely typed settings map into a
    fileLogSetting: the declarative specification the imperative Connect in
    module Logger is proved against, and what it promises. */
module Setting {
  import opened Types

  const DefaultMaxSize: int64 := 1024 * 1024 * 100
  const DefaultMaxLine: int64 := 1000000
  const DefaultSlice: string := "day"

  /** fileLogSetting. */
  datatype FileLogSetting = FileLogSetting(
    File: string,                      // aggregate file, "" when there is none
    LevelFiles: map<Level, string>,    // the file of each level
    MaxSize: int64,
    MaxLine: int64,
    DateSlice: string
  )

  /** The setting before any key of the configuration is consulted. */
  function DefaultSetting(): FileLogSetting
  {
    FileLogSetting("", map[], DefaultMaxSize, DefaultMaxLine, DefaultSlice)
  }

  /** The store directory: the driver's own unless `store` is a non-empty string. */
  function StoreOf(driverStore: string, s: Settings): string
  {
    if Lookup(s, "store").IsNonEmptyString() then Lookup(s, "store").str else driverStore
  }

  /** The configuration key of a level: its lower-cased name. */
  function LevelKey(env: Env, level: Level): string
    requires level in env.levels
  {
    env.lower(env.levels[level])
  }

  /** The file of one level. The `true` branch and the fall-back branch compute
      the same path, so `false` or a missing key cannot switch a level off. */
  function LevelFileOf(env: Env, store: string, s: Settings, level: Level): string
    requires level in env.levels
  {
    var key := LevelKey(env, level);
    var v := Lookup(s, key);
    if v.IsNonEmptyString() then v.str
    else if v.IsTrue() then env.join(store, key + ".log")
    else env.join(store, key + ".log")
  }

  function LevelFilesOf(env: Env, store: string, s: Settings): map<Level, string>
  {
    map level | level in env.levels :: LevelFileOf(env, store, s, level)
  }

  /** The aggregate file: a non-empty string as given, `true` for output.log in the store. */
  function OutputOf(env: Env, store: string, s: Settings): string
  {
    var v := Lookup(s, "output");
    if v.IsNonEmptyString() then v.str
    else if v.IsTrue() then env.join(store, "output.log")
    else ""
  }

  /** The size cap, through the chain maxsize (string) / maxsize (int64) / weight. */
  function MaxSizeOf(env: Env, s: Settings): (r: int64)
    ensures r > 0
    // a non-empty string maxsize decides alone, even when it does not parse to a positive size
    ensures Lookup(s, "maxsize").IsNonEmptyString() ==>
      r == (if env.parseSize(Lookup(s, "maxsize").str) > 0 then env.parseSize(Lookup(s, "maxsize").str) else DefaultMaxSize)
    ensures Lookup(s, "maxsize").IsPositiveInt() ==> r == Lookup(s, "maxsize").i
    // weight is consulted only when maxsize is neither a non-empty string nor a positive int64
    ensures !Lookup(s, "maxsize").IsNonEmptyString() && !Lookup(s, "maxsize").IsPositiveInt() ==>
      r == (if Lookup(s, "weight").IsPositiveInt() then Lookup(s, "weight").i else DefaultMaxSize)
  {
    var maxsize := Lookup(s, "maxsize");
    if maxsize.IsNonEmptyString() then
      var size := env.parseSize(maxsize.str);
      if size > 0 then size else DefaultMaxSize
    else if maxsize.IsPositiveInt() then maxsize.i
    else if Lookup(s, "weight").IsPositiveInt() then Lookup(s, "weight").i
    else DefaultMaxSize
  }

  /** The line cap, through the chain maxline / height. */
  function MaxLineOf(s: Settings): (r: int64)
    ensures r > 0
    ensures Lookup(s, "maxline").IsPositiveInt() ==> r == Lookup(s, "maxline").i
    ensures !Lookup(s, "maxline").IsPositiveInt() ==>
      r == (if Lookup(s, "height").IsPositiveInt() then Lookup(s, "height").i else DefaultMaxLine)
  {
    if Lookup(s, "maxline").IsPositiveInt() then Lookup(s, "maxline").i
    else if Lookup(s, "height").IsPositiveInt() then Lookup(s, "height").i
    else DefaultMaxLine
  }

  /** The date slice: checkSlice of a non-empty string `slice`, else "day". */
  function SliceOf(env: Env, s: Settings): string
  {
    if Lookup(s, "slice").IsNonEmptyString() then env.checkSlice(Lookup(s, "slice").str) else DefaultSlice
  }

  /** The setting Connect builds from the driver's store and the settings map. */
  function Resolve(env: Env, driverStore: string, s: Settings): (r: FileLogSetting)
    // every level of chef.LogLevels gets a file, and no other level does
    ensures r.LevelFiles.Keys == env.levels.Keys
    // the aggregate file
    ensures Lookup(s, "output").IsNonEmptyString() ==> r.File == Lookup(s, "output").str
    ensures Lookup(s, "output").IsTrue() ==> r.File == env.join(StoreOf(driverStore, s), "output.log")
    ensures !Lookup(s, "output").IsNonEmptyString() && !Lookup(s, "output").IsTrue() ==> r.File == ""
    // both caps are always positive
    ensures r.MaxSize > 0 && r.MaxLine > 0
    ensures r.DateSlice != DefaultSlice ==> Lookup(s, "slice").IsNonEmptyString()
    ensures Lookup(s, "slice").IsNonEmptyString() ==> r.DateSlice == env.checkSlice(Lookup(s, "slice").str)
  {
    var store := StoreOf(driverStore, s);
    FileLogSetting(OutputOf(env, store, s), LevelFilesOf(env, store, s), MaxSizeOf(env, s), MaxLineOf(s), SliceOf(env, s))
  }

  /** The file of each level: a non-empty string under its key is used verbatim;
      anything else (`true`, `false`, a missing key) gives <store>/<key>.log. */
  lemma LevelFilesResolved(env: Env, driverStore: string, s: Settings, level: Level)
    requires level in env.levels
    ensures var r := Resolve(env, driverStore, s);
      && level in r.LevelFiles
      && (Lookup(s, LevelKey(env, level)).IsNonEmptyString() ==> r.LevelFiles[level] == Lookup(s, LevelKey(env, level)).str)
      && (!Lookup(s, LevelKey(env, level)).IsNonEmptyString() ==>
            r.LevelFiles[level] == env.join(StoreOf(driverStore, s), LevelKey(env, level) + ".log"))
  {
  }

  /** The keys Resolve reads. */
  function ReadKeys(env: Env): (keys: set<string>)
    ensures forall level :: level in env.levels ==> LevelKey(env, level) in keys
  {
    {"store", "output", "maxsize", "weight", "maxline", "height", "slice"}
      + set level | level in env.levels :: LevelKey(env, level)
  }

  /** When no threshold or slice key passes its own type test, the caps and
      the slice are the defaults. */
  lemma DefaultsWhenUnset(env: Env, driverStore: string, s: Settings)
    requires !Lookup(s, "maxsize").IsNonEmptyString() && !Lookup(s, "maxsize").IsPositiveInt()
    requires !Lookup(s, "weight").IsPositiveInt()
    requires !Lookup(s, "maxline").IsPositiveInt() && !Lookup(s, "height").IsPositiveInt()
    requires !Lookup(s, "slice").IsNonEmptyString()
    ensures Resolve(env, driverStore, s).MaxSize == 104857600
    ensures Resolve(env, driverStore, s).MaxLine == 1000000
    ensures Resolve(env, driverStore, s).DateSlice == "day"
  {
  }

  /** An empty settings map gives the defaults, no aggregate file and
      <driver store>/<level>.log for every level. */
  lemma EmptySettings(env: Env, driverStore: string)
    ensures Resolve(env, driverStore, map[]) ==
      DefaultSetting().(LevelFiles := map level | level in env.levels :: env.join(driverStore, LevelKey(env, level) + ".log"))
  {
  }

  /** Two settings maps that every type test of Resolve reads alike: on each
      key Resolve reads they hold the same value or two inert ones. */
  ghost predicate ReadAlike(env: Env, a: Settings, b: Settings)
  {
    forall k :: k in ReadKeys(env) ==> Lookup(a, k) == Lookup(b, k) || (Lookup(a, k).IsInert() && Lookup(b, k).IsInert())
  }

  /** Resolve depends on nothing but what its type tests read. */
  lemma ResolveReadsOnlyReadKeys(env: Env, driverStore: string, a: Settings, b: Settings)
    requires ReadAlike(env, a, b)
    ensures Resolve(env, driverStore, a) == Resolve(env, driverStore, b)
  {
    assert "store" in ReadKeys(env) && "output" in ReadKeys(env) && "slice" in ReadKeys(env);
    assert "maxsize" in ReadKeys(env) && "weight" in ReadKeys(env);
    assert "maxline" in ReadKeys(env) && "height" in ReadKeys(env);
    assert StoreOf(driverStore, a) == StoreOf(driverStore, b);
    var store := StoreOf(driverStore, a);
    LevelFilesReadAlike(env, store, a, b);
    assert OutputOf(env, store, a) == OutputOf(env, store, b);
    assert MaxSizeOf(env, a) == MaxSizeOf(env, b);
    assert MaxLineOf(a) == MaxLineOf(b);
    assert SliceOf(env, a) == SliceOf(env, b);
  }

  /** The level files depend only on the level keys. */
  lemma LevelFilesReadAlike(env: Env, store: string, a: Settings, b: Settings)
    requires ReadAlike(env, a, b)
    ensures LevelFilesOf(env, store, a) == LevelFilesOf(env, store, b)
  {
    var filesA, filesB := LevelFilesOf(env, store, a), LevelFilesOf(env, store, b);
    forall level ensures (level in filesA <==> level in filesB) && (level in filesA ==> filesA[level] == filesB[level]) {
      if level in env.levels {
        assert LevelKey(env, level) in ReadKeys(env);
      }
    }
  }

  /** An inert value (`false`, `""`, a non-positive int64, another type) under
      any key resolves exactly as if the key were missing. */
  lemma InertValueIsAbsent(env: Env, driverStore: string, s: Settings, key: string, v: Value)
    requires v.IsInert()
    ensures Resolve(env, driverStore, s[key := v]) == Resolve(env, driverStore, s - {key})
  {
    var with, without := s[key := v], s - {key};
    forall k | k in ReadKeys(env)
      ensures Lookup(with, k) == Lookup(without, k) || (Lookup(with, k).IsInert() && Lookup(without, k).IsInert())
    {
      if k == key {
        assert Lookup(with, k) == v && Lookup(without, k) == Other;
      } else {
        assert Lookup(with, k) == Lookup(without, k);
      }
    }
    ResolveReadsOnlyReadKeys(env, driverStore, with, without);
  }

  /** A key Resolve does not read does not change the setting. */
  lemma UnreadKeyIsIgnored(env: Env, driverStore: string, s: Settings, key: string, v: Value)
    requires key !in ReadKeys(env)
    ensures Resolve(env, driverStore, s[key := v]) == Resolve(env, driverStore, s)
  {
    var with := s[key := v];
    forall k | k in ReadKeys(env)
      ensures Lookup(with, k) == Lookup(s, k) || (Lookup(with, k).IsInert() && Lookup(s, k).IsInert())
    {
      assert k != key;
    }
    ResolveReadsOnlyReadKeys(env, driverStore, with, s);
  }

  /** A non-empty string or positive int64 maxsize hides weight, and a positive
      maxline hides height, whatever they hold. */
  lemma FallbacksAreShadowed(env: Env, driverStore: string, s: Settings, w: Value, h: Value)
    ensures Lookup(s, "maxsize").IsNonEmptyString() || Lookup(s, "maxsize").IsPositiveInt() ==>
      Resolve(env, driverStore, s["weight" := w]).MaxSize == Resolve(env, driverStore, s).MaxSize
    ensures Lookup(s, "maxline").IsPositiveInt() ==>
      Resolve(env, driverStore, s["height" := h]).MaxLine == Resolve(env, driverStore, s).MaxLine
  {
  }
}
