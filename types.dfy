/** Values and collaborators shared by the model of the file log sink. */
module Types {

  /** Go's int64. */
  type int64 = i: int | -0x8000_0000_0000_0000 <= i < 0x8000_0000_0000_0000

  /** chef.LogLevel: an integer severity. */
  type Level = int

  /** One value of the loosely typed settings map, as far as the sink's type
      assertions can tell it apart: a string, a bool, an int64, or anything
      else (including a missing key, which reads as a nil interface). */
  datatype Value = Str(str: string) | Bool(b: bool) | Int(i: int64) | Other
  {
    /** `vv, ok := x.(string); ok && vv != ""` */
    predicate IsNonEmptyString() { Str? && str != "" }

    /** `vv, ok := x.(bool); ok && vv` */
    predicate IsTrue() { Bool? && b }

    /** `vv, ok := x.(int64); ok && vv > 0` */
    predicate IsPositiveInt() { Int? && i > 0 }

    /** A value that no test of the resolution accepts: `false`, `""`, an int64
        that is not positive, or a value of another type. */
    predicate IsInert() { !IsNonEmptyString() && !IsTrue() && !IsPositiveInt() }
  }

  /** chef.LogConfig.Setting. */
  type Settings = map<string, Value>

  /** `config.Setting[key]`: a missing key reads as a nil interface, which no
      type assertion accepts. */
  function Lookup(settings: Settings, key: string): Value
  {
    if key in settings then settings[key] else Other
  }

  /** chef.LogConfig; the sink reads only its Setting map. */
  datatype LogConfig = LogConfig(Setting: Settings)

  /** chef.Log; the sink routes on its Level, the other fields go to the writers. */
  datatype Log = Log(Level: Level, Body: string)

  /** The collaborators the sink calls but does not define. */
  datatype Env = Env(
    levels: map<Level, string>,        // chef.LogLevels(): level -> name
    lower: string -> string,           // strings.ToLower
    join: (string, string) -> string,  // path.Join
    parseSize: string -> int64,        // util.ParseSize
    checkSlice: string -> string,      // checkSlice
    maxLevel: Level                    // MAX_LEVEL, the key of the aggregate writer
  )

  /** A Go `error`: nil or a failure. */
  datatype Error = Error(message: string)
  datatype Outcome = Nil | Fail(error: Error)

  /** A set with no member is the empty set. */
  lemma EmptyWithoutMember(s: set<Level>)
    requires forall x :: x !in s
    ensures s == {}
  {
    forall x ensures x in s <==> x in {} {}
  }

  /** A non-empty set has a member: the next key a range over a map can visit. */
  lemma NonEmptyHasMember(s: set<Level>)
    requires s != {}
    ensures exists x :: x in s
  {
    if forall x :: x !in s {
      EmptyWithoutMember(s);
      assert false;
    }
  }
}
