/** Resolution of the CSV log file name, done once when a session starts. */
module LogFile {
  import opened Wrappers

  predicate EndsWith(s: string, suffix: string)
  {
    |suffix| <= |s| && s[|s| - |suffix|..] == suffix
  }

  /** Python truthiness of an optional name: both `None` and `""` are false. */
  predicate Named(name: Option<string>)
  {
    name.Some? && name.value != ""
  }

  /**
   * get_unique_log_filename. `fileExists` is what the file system says about the requested
   * name and `timestamp` is the current time already formatted; both are supplied by the caller.
   */
  function UniqueLogFilename(baseName: Option<string>, fileExists: bool, timestamp: string): (r: Option<string>)
    ensures !Named(baseName) ==> r == baseName
    ensures Named(baseName) ==> Named(r) && EndsWith(r.value, ".csv") && baseName.value <= r.value
    ensures Named(baseName) && fileExists ==>
      |r.value| == |baseName.value| + |timestamp| + 5 &&
      r.value[|baseName.value|..|baseName.value| + 1] == "_" &&
      r.value[|baseName.value| + 1..|baseName.value| + 1 + |timestamp|] == timestamp
    ensures Named(baseName) && !fileExists ==>
      if EndsWith(baseName.value, ".csv") then r == baseName else r.value == baseName.value + ".csv"
  {
    if Named(baseName) then
      var b := baseName.value;
      if fileExists then
        var n := b + "_" + timestamp + ".csv";
        assert n[|n| - 4..] == ".csv" && n[..|b|] == b;
        assert n[|b|..|b| + 1] == "_" && n[|b| + 1..|b| + 1 + |timestamp|] == timestamp;
        Some(n)
      else if !EndsWith(b, ".csv") then
        var n := b + ".csv";
        assert n[|n| - 4..] == ".csv";
        Some(n)
      else baseName
    else baseName
  }

  /** A resolved name that does not exist yet resolves to itself. */
  lemma LogFilenameIdempotent(baseName: Option<string>, fileExists: bool, timestamp: string, later: string)
    ensures var r := UniqueLogFilename(baseName, fileExists, timestamp);
      UniqueLogFilename(r, false, later) == r
  {
  }
}
