// The bookkeeping around the compressors (tools/compress.py): which
// compressors exist and with which level range, how a requested level is
// brought into that range, and the table compress() returns. The
// compressors themselves are an abstract `backend` function.

module Compress {
  import opened Builtins
  import opened UtilityFunctions

  /** The lowest and highest level a compressor accepts; `(-1, -1)` when it has none. */
  datatype LevelRange = LevelRange(min: int, max: int)

  /** One compressor's answer for one file: sizes in bytes, and the optional rate and decompression time. */
  datatype CompressionData = CompressionData(original: int, compressed: int, rate: Option<real>, time: Option<real>)

  /** What compress is asked to work on: a directory listing or a single path. */
  datatype Input = Directory(path: string, names: seq<string>) | File(path: string)

  datatype CompressError = UnknownCompressor

  /** What the machine offers test_compressors: whether lzma imports, `PATH`, and the files that exist. */
  datatype Environment = Environment(lzmaAvailable: bool, path: string, files: set<string>)

  // ------------------------------------------------------------------ levels

  /**
   * The clamp at the head of compress (tools/compress.py:116-119). A missing
   * level compares below every number in Python 2, so it becomes the minimum.
   */
  function ClampLevel(level: Option<int>, levels: LevelRange): (r: int)
    ensures level.Some? && level.value > levels.max ==> r == levels.max
    ensures level.Some? && level.value <= levels.max && level.value < levels.min ==> r == levels.min
    ensures level.None? ==> r == levels.min
  {
    if level.Some? && level.value > levels.max then levels.max
    else if level.None? || level.value < levels.min then levels.min
    else level.value
  }

  /** A level already in range passes the clamp unchanged, and every clamped level is in range. */
  lemma ClampLevelInRange(level: Option<int>, levels: LevelRange)
    requires levels.min <= levels.max
    ensures levels.min <= ClampLevel(level, levels) <= levels.max
    ensures level.Some? && levels.min <= level.value <= levels.max ==> ClampLevel(level, levels) == level.value
    ensures ClampLevel(Some(ClampLevel(level, levels)), levels) == ClampLevel(level, levels)
  {
  }

  /**
   * set_level (tools/compress.py:477-488): a missing or zero level, or one
   * above the maximum, becomes the maximum; one below the minimum becomes
   * the minimum; any other level is kept.
   */
  function SetLevel(level: Option<int>, levels: LevelRange): (r: int)
    ensures level.None? || level.value == 0 || level.value > levels.max ==> r == levels.max
    ensures level.Some? && level.value != 0 && level.value <= levels.max && level.value < levels.min ==> r == levels.min
    ensures level.Some? && level.value != 0 && levels.min <= level.value <= levels.max ==> r == level.value
  {
    if level.None? || level.value == 0 || level.value > levels.max then levels.max
    else if level.value < levels.min then levels.min
    else level.value
  }

  /** set_level's result lies in the compressor's range, and compress's clamp leaves it alone. */
  lemma SetLevelInRange(level: Option<int>, levels: LevelRange)
    requires levels.min <= levels.max
    ensures levels.min <= SetLevel(level, levels) <= levels.max
    ensures ClampLevel(Some(SetLevel(level, levels)), levels) == SetLevel(level, levels)
  {
  }

  /** For a given, non-zero level, set_level and compress's clamp agree. */
  lemma SetLevelAgreesWithClamp(level: int, levels: LevelRange)
    requires level != 0
    ensures SetLevel(Some(level), levels) == ClampLevel(Some(level), levels)
  {
  }

  // ------------------------------------------------------------- compressors

  /** The compressors that need no executable, and their level ranges. */
  const BUILT_IN: map<string, LevelRange> := map["gzip" := LevelRange(1, 9), "bzip2" := LevelRange(1, 9), "brotli" := LevelRange(1, 11)]

  /** The level range of lzma, listed when the module imports. */
  const LZMA_LEVELS := LevelRange(6, 6)

  /** The compressors looked up as executables on `PATH` (`compressor_list`), in one iteration order. */
  const EXTERNAL: seq<(string, LevelRange)> := [("paq8l", LevelRange(1, 8)), ("ppmd", LevelRange(2, 16)), ("spbio", LevelRange(-1, -1))]

  /** The directories test_compressors searches: `PATH` split on `;`, or on `:` when that gives one entry. */
  function SearchPath(path: string): (r: seq<string>)
    ensures |r| > 0
    ensures |Split(path, ';')| > 1 ==> r == Split(path, ';')
    ensures ';' !in path ==> r == Split(path, ':')
  {
    var parts := Split(path, ';');
    if |parts| == 1 then Split(parts[0], ':') else parts
  }

  /** A path without `;` is searched as a colon-separated list, and joining its directories back gives it. */
  lemma SearchPathColons(path: string)
    requires ';' !in path
    ensures Join(SearchPath(path), ':') == path
  {
    JoinSplit(path, ':');
  }

  /** Whether `dir/name` or `dir/name.exe` exists. */
  predicate InDirectory(env: Environment, dir: string, name: string)
  {
    PathJoin(dir, name) in env.files || PathJoin(dir, name + ".exe") in env.files
  }

  /** Whether some directory of the search path holds the executable. */
  predicate Found(env: Environment, name: string)
  {
    exists d :: d in SearchPath(env.path) && InDirectory(env, d, name)
  }

  /** The names test_compressors may list. */
  predicate Known(name: string)
  {
    name in BUILT_IN || name == "lzma" || exists e :: e in EXTERNAL && e.0 == name
  }

  /**
   * test_compressors (tools/compress.py:401-421): the built-in compressors,
   * lzma when it imports, and each external compressor found on the search path.
   */
  method TestCompressors(env: Environment) returns (available: map<string, LevelRange>)
    ensures forall name :: name in BUILT_IN ==> name in available && available[name] == BUILT_IN[name]
    ensures "lzma" in available <==> env.lzmaAvailable
    ensures "lzma" in available ==> available["lzma"] == LZMA_LEVELS
    ensures forall k :: 0 <= k < |EXTERNAL| ==>
      (EXTERNAL[k].0 in available <==> Found(env, EXTERNAL[k].0))
      && (EXTERNAL[k].0 in available ==> available[EXTERNAL[k].0] == EXTERNAL[k].1)
    ensures forall name :: name in available ==> Known(name)
  {
    available := BUILT_IN;
    if env.lzmaAvailable {
      available := available["lzma" := LZMA_LEVELS];
    }
    var dirs := SearchPath(env.path);
    ExternalNamesDistinct();
    for k := 0 to |EXTERNAL|
      invariant forall name :: name in BUILT_IN ==> name in available && available[name] == BUILT_IN[name]
      invariant "lzma" in available <==> env.lzmaAvailable
      invariant "lzma" in available ==> available["lzma"] == LZMA_LEVELS
      invariant forall j :: 0 <= j < k ==>
        (EXTERNAL[j].0 in available <==> Found(env, EXTERNAL[j].0))
        && (EXTERNAL[j].0 in available ==> available[EXTERNAL[j].0] == EXTERNAL[j].1)
      invariant forall j :: k <= j < |EXTERNAL| ==> EXTERNAL[j].0 !in available
      invariant forall name :: name in available ==> Known(name)
    {
      var (name, levels) := EXTERNAL[k];
      assert EXTERNAL[k] in EXTERNAL;
      var found := Search(env, dirs, name);
      if found {
        available := available[name := levels];
      }
    }
  }

  /** The external compressors' names are distinct, and neither built in nor lzma. */
  lemma ExternalNamesDistinct()
    ensures forall j, k :: 0 <= j < k < |EXTERNAL| ==> EXTERNAL[j].0 != EXTERNAL[k].0
    ensures forall j :: 0 <= j < |EXTERNAL| ==> EXTERNAL[j].0 !in BUILT_IN && EXTERNAL[j].0 != "lzma"
  {
  }

  /** The inner loop of test_compressors: whether any directory holds the executable. */
  method Search(env: Environment, dirs: seq<string>, name: string) returns (found: bool)
    requires dirs == SearchPath(env.path)
    ensures found <==> Found(env, name)
  {
    found := false;
    for i := 0 to |dirs|
      invariant found <==> exists d :: d in dirs[..i] && InDirectory(env, d, name)
    {
      assert dirs[..i + 1] == dirs[..i] + [dirs[i]];
      if InDirectory(env, dirs[i], name) {
        found := true;
      }
    }
    assert dirs[..|dirs|] == dirs;
  }

  // ---------------------------------------------------------------- compress

  /**
   * The table compress builds over a directory listing (tools/compress.py:121-127):
   * each non-hidden name, stripped, maps to the backend's answer for that file.
   */
  function DirectoryTable(dir: string, names: seq<string>, level: int, backend: (string, int) -> CompressionData): map<string, CompressionData>
    decreases |names|
  {
    if names == [] then map[]
    else
      var n := |names| - 1;
      var table := DirectoryTable(dir, names[..n], level, backend);
      if Hidden(names[n]) then table
      else table[Strip(names[n]) := backend(PathJoin(dir, Strip(names[n])), level)]
  }

  /** The keys of a directory table are exactly the stripped visible names. */
  lemma {:induction false} DirectoryTableKeys(dir: string, names: seq<string>, level: int, backend: (string, int) -> CompressionData, key: string)
    ensures key in DirectoryTable(dir, names, level, backend) <==> Lists(names, key)
    decreases |names|
  {
    if names != [] {
      var n := |names| - 1;
      DirectoryTableKeys(dir, names[..n], level, backend, key);
      ListsSnoc(names, key);
    }
  }

  /** Each entry holds the backend's answer for the file of that name in the directory. */
  lemma {:induction false} DirectoryTableValues(dir: string, names: seq<string>, level: int, backend: (string, int) -> CompressionData, key: string)
    requires key in DirectoryTable(dir, names, level, backend)
    ensures DirectoryTable(dir, names, level, backend)[key] == backend(PathJoin(dir, key), level)
    decreases |names|
  {
    var n := |names| - 1;
    if Hidden(names[n]) || Strip(names[n]) != key {
      DirectoryTableValues(dir, names[..n], level, backend, key);
    }
  }

  /** The table of compress: the whole answer, before the level is used. */
  function CompressTable(input: Input, algorithm: string, level: Option<int>, available: map<string, LevelRange>,
                         backend: (string, int) -> CompressionData): Result<map<string, CompressionData>, CompressError>
  {
    if algorithm !in available then Err(UnknownCompressor)
    else
      var l := ClampLevel(level, available[algorithm]);
      match input
      case Directory(dir, names) => Ok(DirectoryTable(dir, names, l, backend))
      case File(path) => Ok(map[Strip(path) := backend(Strip(path), l)])
  }

  /**
   * compress (tools/compress.py:88-131). The compressor is called through
   * `backend` with the clamped level; an unknown compressor name raises.
   */
  method Compress(input: Input, algorithm: string, level: Option<int>, available: map<string, LevelRange>,
                  backend: (string, int) -> CompressionData) returns (r: Result<map<string, CompressionData>, CompressError>)
    ensures r == CompressTable(input, algorithm, level, available, backend)
  {
    if algorithm !in available {
      return Err(UnknownCompressor);
    }
    var l := ClampLevel(level, available[algorithm]);
    match input
    case File(path) =>
      var name := Strip(path);
      r := Ok(map[name := backend(name, l)]);
    case Directory(dir, names) =>
      var table := map[];
      for k := 0 to |names|
        invariant table == DirectoryTable(dir, names[..k], l, backend)
      {
        assert names[..k + 1][..k] == names[..k];
        if !Hidden(names[k]) {
          var name := Strip(names[k]);
          table := table[name := backend(PathJoin(dir, name), l)];
        }
      }
      assert names[..|names|] == names;
      r := Ok(table);
  }

  /** On a single file the one key is the stripped path itself, with every `/` in it. */
  lemma FileKey(path: string, algorithm: string, level: Option<int>, available: map<string, LevelRange>,
                backend: (string, int) -> CompressionData)
    requires algorithm in available
    ensures CompressTable(File(path), algorithm, level, available, backend).Ok?
    ensures CompressTable(File(path), algorithm, level, available, backend).value.Keys == {Strip(path)}
    ensures '/' in path ==> '/' in Strip(path)
  {
    if '/' in path {
      StripKeeps(path, FirstIndex(path, '/'));
    }
  }
}
