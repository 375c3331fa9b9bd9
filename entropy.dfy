// The entropy front end (tools/entropy.py): the table entropy() and
// calculate_std() build over a file or a directory, and the counting phase
// of apenv2 over the n_m / n_mp arrays. The entropy estimators and the
// standard deviation are abstract functions.

module Entropy {
  import opened Builtins
  import opened UtilityFunctions

  /** The estimators entropy() accepts (`AVAILABLE_ALGORITHMS`). */
  const ALGORITHMS: seq<string> := ["sampen", "apen", "apenv2"]

  /** One estimator's answer for one file: the number of values read and the entropy. */
  datatype EntropyData = EntropyData(points: nat, entropy: real)

  /** What entropy is asked to work on: a directory listing or a single path. */
  datatype Input = Directory(path: string, names: seq<string>) | File(path: string)

  datatype EntropyError = UnknownAlgorithm | MissingTolerance

  /** The file system as far as the estimators see it: the values each path holds. */
  type Reader = string -> seq<real>

  /** An estimator: algorithm name, values, dimension, tolerance; it only yields the entropy value. */
  type Estimator = (string, seq<real>, nat, real) -> real

  /** The first value stored under `key` in a dictionary given as its items in iteration order. */
  function Lookup(items: seq<(string, real)>, key: string): (r: Option<real>)
    ensures r.Some? <==> exists k :: 0 <= k < |items| && items[k].0 == key
    ensures r.Some? ==> exists k :: 0 <= k < |items| && items[k] == (key, r.value)
  {
    if items == [] then None
    else if items[0].0 == key then Some(items[0].1)
    else
      var r := Lookup(items[1..], key);
      assert forall k :: 1 <= k < |items| ==> items[k] == items[1..][k - 1];
      r
  }

  /** One file's estimate: the value count of the file, and the estimator's entropy. */
  function Estimate(algorithm: string, values: seq<real>, dimension: nat, tolerance: real, estimator: Estimator): (r: EntropyData)
    ensures r.points == |values|
  {
    EntropyData(|values|, estimator(algorithm, values, dimension, tolerance))
  }

  /**
   * The directory branch of entropy (tools/entropy.py:79-84): each visible
   * name looks its tolerance up under the name as listed, and its result is
   * stored under the stripped name.
   */
  function DirectoryTable(dir: string, names: seq<string>, algorithm: string, dimension: nat, tolerances: seq<(string, real)>,
                          read: Reader, estimator: Estimator): Result<map<string, EntropyData>, EntropyError>
    decreases |names|
  {
    if names == [] then Ok(map[])
    else
      var n := |names| - 1;
      match DirectoryTable(dir, names[..n], algorithm, dimension, tolerances, read, estimator)
      case Err(e) => Err(e)
      case Ok(table) =>
        if Hidden(names[n]) then Ok(table)
        else
          match Lookup(tolerances, names[n])
          case None => Err(MissingTolerance)
          case Some(t) =>
            var path := PathJoin(dir, Strip(names[n]));
            Ok(table[Strip(names[n]) := Estimate(algorithm, read(path), dimension, t, estimator)])
  }

  /**
   * entropy (tools/entropy.py:64-91). A single file uses the first tolerance
   * of the dictionary and is stored under its base name.
   */
  function EntropyTable(input: Input, algorithm: string, dimension: nat, tolerances: seq<(string, real)>,
                        read: Reader, estimator: Estimator): Result<map<string, EntropyData>, EntropyError>
  {
    if algorithm !in ALGORITHMS then Err(UnknownAlgorithm)
    else
      match input
      case Directory(dir, names) => DirectoryTable(dir, names, algorithm, dimension, tolerances, read, estimator)
      case File(path) =>
        if tolerances == [] then Err(MissingTolerance)
        else Ok(map[Basename(path) := Estimate(algorithm, read(Strip(path)), dimension, tolerances[0].1, estimator)])
  }

  /** The method form of entropy, with the directory loop of the source. */
  method ComputeEntropy(input: Input, algorithm: string, dimension: nat, tolerances: seq<(string, real)>,
                        read: Reader, estimator: Estimator) returns (r: Result<map<string, EntropyData>, EntropyError>)
    ensures r == EntropyTable(input, algorithm, dimension, tolerances, read, estimator)
  {
    if algorithm !in ALGORITHMS {
      return Err(UnknownAlgorithm);
    }
    match input
    case File(path) =>
      if tolerances == [] {
        return Err(MissingTolerance);
      }
      r := Ok(map[Basename(path) := Estimate(algorithm, read(Strip(path)), dimension, tolerances[0].1, estimator)]);
    case Directory(dir, names) =>
      var table := map[];
      for k := 0 to |names|
        invariant DirectoryTable(dir, names[..k], algorithm, dimension, tolerances, read, estimator) == Ok(table)
      {
        assert names[..k + 1][..k] == names[..k];
        if !Hidden(names[k]) {
          var t := Lookup(tolerances, names[k]);
          if t.None? {
            DirectoryAbort(dir, names, algorithm, dimension, tolerances, read, estimator, k);
            return Err(MissingTolerance);
          }
          var name := Strip(names[k]);
          table := table[name := Estimate(algorithm, read(PathJoin(dir, name)), dimension, t.value, estimator)];
        }
      }
      assert names[..|names|] == names;
      r := Ok(table);
  }

  /** Once a visible name has no tolerance, the whole directory call fails. */
  lemma {:induction false} DirectoryAbort(dir: string, names: seq<string>, algorithm: string, dimension: nat, tolerances: seq<(string, real)>,
                                          read: Reader, estimator: Estimator, k: nat)
    requires k < |names|
    requires DirectoryTable(dir, names[..k + 1], algorithm, dimension, tolerances, read, estimator).Err?
    ensures DirectoryTable(dir, names, algorithm, dimension, tolerances, read, estimator)
      == DirectoryTable(dir, names[..k + 1], algorithm, dimension, tolerances, read, estimator)
    decreases |names| - k
  {
    if k + 1 < |names| {
      var n := |names| - 1;
      assert names[..n][..k + 1] == names[..k + 1];
      DirectoryAbort(dir, names[..n], algorithm, dimension, tolerances, read, estimator, k);
    } else {
      assert names[..k + 1] == names;
    }
  }

  /** On a single file the one key is the base name, so a result can be found under the name a caller joined onto a directory. */
  lemma FileKeyIsBasename(dir: string, name: string, algorithm: string, dimension: nat, tolerances: seq<(string, real)>,
                          read: Reader, estimator: Estimator)
    requires algorithm in ALGORITHMS && tolerances != [] && '/' !in name
    ensures EntropyTable(File(PathJoin(dir, name)), algorithm, dimension, tolerances, read, estimator)
      == Ok(map[name := Estimate(algorithm, read(Strip(PathJoin(dir, name))), dimension, tolerances[0].1, estimator)])
  {
    BasenameOfJoin(dir, name);
  }

  /** A directory table is keyed by exactly the stripped visible names. */
  lemma {:induction false} DirectoryTableKeys(dir: string, names: seq<string>, algorithm: string, dimension: nat, tolerances: seq<(string, real)>,
                                              read: Reader, estimator: Estimator, key: string)
    requires DirectoryTable(dir, names, algorithm, dimension, tolerances, read, estimator).Ok?
    ensures key in DirectoryTable(dir, names, algorithm, dimension, tolerances, read, estimator).value <==> Lists(names, key)
    decreases |names|
  {
    if names != [] {
      var n := |names| - 1;
      DirectoryTableKeys(dir, names[..n], algorithm, dimension, tolerances, read, estimator, key);
      ListsSnoc(names, key);
    }
  }

  // ---------------------------------------------------------- calculate_std

  /** calculate_std (tools/entropy.py:94-110): directory entries keep their listed names; a file is keyed by its path. */
  function StdTable(input: Input, read: Reader, std: seq<real> -> real): (r: map<string, real>)
    ensures input.File? ==> r == map[input.path := std(read(input.path))]
  {
    match input
    case File(path) => map[path := std(read(path))]
    case Directory(dir, names) => StdDirectory(dir, names, read, std)
  }

  function StdDirectory(dir: string, names: seq<string>, read: Reader, std: seq<real> -> real): map<string, real>
    decreases |names|
  {
    if names == [] then map[]
    else
      var n := |names| - 1;
      var table := StdDirectory(dir, names[..n], read, std);
      if Hidden(names[n]) then table else table[names[n] := std(read(PathJoin(dir, names[n])))]
  }

  /** The method form of calculate_std, with the directory loop of the source. */
  method CalculateStd(input: Input, read: Reader, std: seq<real> -> real) returns (r: map<string, real>)
    ensures r == StdTable(input, read, std)
  {
    match input
    case File(path) =>
      r := map[path := std(read(path))];
    case Directory(dir, names) =>
      r := map[];
      for k := 0 to |names|
        invariant r == StdDirectory(dir, names[..k], read, std)
      {
        assert names[..k + 1][..k] == names[..k];
        if !Hidden(names[k]) {
          r := r[names[k] := std(read(PathJoin(dir, names[k])))];
        }
      }
      assert names[..|names|] == names;
  }

  /** The directory table of calculate_std is keyed by the visible names exactly as listed. */
  lemma {:induction false} StdDirectoryKeys(dir: string, names: seq<string>, read: Reader, std: seq<real> -> real, key: string)
    ensures key in StdDirectory(dir, names, read, std) <==> key in names && !Hidden(key)
    decreases |names|
  {
    if names != [] {
      var n := |names| - 1;
      StdDirectoryKeys(dir, names[..n], read, std, key);
      assert names == names[..n] + [names[n]];
    }
  }

  /** Each entry of calculate_std's directory table is the deviation of that file's values. */
  lemma {:induction false} StdDirectoryValue(dir: string, names: seq<string>, read: Reader, std: seq<real> -> real, key: string)
    requires key in StdDirectory(dir, names, read, std)
    ensures StdDirectory(dir, names, read, std)[key] == std(read(PathJoin(dir, key)))
    decreases |names|
  {
    var n := |names| - 1;
    if Hidden(names[n]) || names[n] != key {
      StdDirectoryValue(dir, names[..n], read, std, key);
    }
  }
}
