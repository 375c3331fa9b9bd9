// Multiscale coarse-graining (tools/multiscale.py): one scale of a series
// as the means of disjoint, consecutive windows; the loop that writes every
// scale of a file or directory into `Scale <n>` directories, skipping those
// that exist; and the per-file tables of compression sizes and entropies
// over the scales. The file system is a value (`Disk`), reading a file is
// the function `read`, and the compressor and the estimator are the
// abstract functions of the Compress and Entropy modules.

module Multiscale {
  import opened Builtins
  import opened UtilityFunctions
  import Compress
  import Entropy

  /** What the file system holds: the directories that exist and the values written to each file. */
  datatype Disk = Disk(dirs: set<string>, files: map<string, seq<Written>>)

  /** One value create_scale writes: `%d` of the rounded value, or the value itself (`%.3f`). */
  datatype Written = Rounded(n: int) | Fixed(x: real)

  /** The file system as far as the tools read it: the values each path holds. */
  type Reader = string -> seq<real>

  // ------------------------------------------------------------ create_scale

  /** `mul_order == -1` leaves a mean alone; any other order multiplies it. */
  function Multiplied(mean: real, mulOrder: int): real
  {
    if mulOrder != -1 then mean * mulOrder as real else mean
  }

  /** How one value is written: rounded to an integer, or kept. */
  function Write(v: real, roundToInt: bool): Written
  {
    if roundToInt then Rounded(Round(v)) else Fixed(v)
  }

  /** The output of one window: its mean, multiplied and written as asked. */
  function Point(window: seq<real>, mulOrder: int, roundToInt: bool): Written
    requires |window| > 0
  {
    Write(Multiplied(Mean(window), mulOrder), roundToInt)
  }

  /** What create_scale writes for a series: one point per full window of `scale` values, front to back. */
  function ScaleSeries(values: seq<real>, scale: nat, mulOrder: int, roundToInt: bool): seq<Written>
    requires scale > 0
    decreases |values|
  {
    if |values| < scale then []
    else [Point(values[..scale], mulOrder, roundToInt)] + ScaleSeries(values[scale..], scale, mulOrder, roundToInt)
  }

  /**
   * create_scale (tools/multiscale.py:257-271): while a whole window of
   * `scale` values is left, write the point of that window and move past it.
   */
  method CreateScale(values: seq<real>, scale: int, mulOrder: int, roundToInt: bool) returns (out: seq<Written>)
    requires scale >= 1
    ensures out == ScaleSeries(values, scale, mulOrder, roundToInt)
  {
    out := [];
    var index := 0;
    while index + scale <= |values|
      invariant 0 <= index <= |values|
      invariant out + ScaleSeries(values[index..], scale, mulOrder, roundToInt) == ScaleSeries(values, scale, mulOrder, roundToInt)
      decreases |values| - index
    {
      var rest := values[index..];
      assert rest[..scale] == values[index..index + scale];
      assert rest[scale..] == values[index + scale..];
      out := out + [Point(values[index..index + scale], mulOrder, roundToInt)];
      index := index + scale;
    }
  }

  /** A series of `n` values gives `n / scale` points: the last `n % scale` values are dropped, nothing is padded. */
  lemma {:induction false} ScaleSeriesLength(values: seq<real>, scale: nat, mulOrder: int, roundToInt: bool)
    requires scale > 0
    ensures |ScaleSeries(values, scale, mulOrder, roundToInt)| == |values| / scale
    ensures |values| - |ScaleSeries(values, scale, mulOrder, roundToInt)| * scale == |values| % scale
    decreases |values|
  {
    var n := |values|;
    if n >= scale {
      ScaleSeriesLength(values[scale..], scale, mulOrder, roundToInt);
      DivStep(n, scale);
    }
  }

  /** Taking one window off the front lowers the quotient by one and keeps the remainder. */
  lemma DivStep(n: nat, scale: nat)
    requires 0 < scale <= n
    ensures (n - scale) / scale + 1 == n / scale
    ensures (n - scale) % scale == n % scale
  {
    var q := (n - scale) / scale;
    var r := (n - scale) % scale;
    assert n == (q + 1) * scale + r by {
      assert n - scale == q * scale + r;
    }
    DivUnique(n, scale, q + 1, r);
  }

  lemma DivUnique(n: nat, d: nat, q: nat, r: nat)
    requires 0 <= r < d && n == q * d + r
    ensures n / d == q && n % d == r
  {
    var q', r' := n / d, n % d;
    assert n == q' * d + r';
    assert (q' - q) * d == r - r' by {
      assert (q' - q) * d == q' * d - q * d;
    }
    if q' > q {
      MulAtLeast(q' - q, d);
      assert false;
    } else if q' < q {
      MulAtLeast(q - q', d);
      assert false;
    }
  }

  lemma MulAtLeast(a: int, d: nat)
    requires a >= 1
    ensures a * d >= d
  {
    assert a * d == (a - 1) * d + d;
  }

  /** Point `k` is that of the window `[k * scale, (k + 1) * scale)` of the input. */
  lemma {:induction false} ScaleSeriesAt(values: seq<real>, scale: nat, mulOrder: int, roundToInt: bool, k: nat)
    requires scale > 0 && k < |ScaleSeries(values, scale, mulOrder, roundToInt)|
    ensures (k + 1) * scale <= |values|
    ensures ScaleSeries(values, scale, mulOrder, roundToInt)[k] == Point(values[k * scale..(k + 1) * scale], mulOrder, roundToInt)
    decreases k
  {
    if k > 0 {
      var rest := values[scale..];
      ScaleSeriesAt(rest, scale, mulOrder, roundToInt, k - 1);
      MulStep(k, scale);
      MulStep(k + 1, scale);
      assert rest[(k - 1) * scale..k * scale] == values[k * scale..(k + 1) * scale];
    }
  }

  /** At scale 1 without multiplication or rounding every value is written back unchanged. */
  lemma {:induction false} ScaleOneIdentity(values: seq<real>)
    ensures ScaleSeries(values, 1, -1, false) == seq(|values|, k requires 0 <= k < |values| => Fixed(values[k]))
    decreases |values|
  {
    if values != [] {
      ScaleOneIdentity(values[1..]);
      assert values[..1] == [values[0]];
      assert Sum(values[..1]) == values[0] by {
        assert values[..1][1..] == [];
      }
    }
  }

  // ----------------------------------------------------------- create_scales

  /** What create_scales is asked to work on: a directory listing or a single path. */
  datatype Input = Directory(path: string, names: seq<string>) | File(path: string)

  /** Python `"%d" % n`. */
  function DecimalString(n: int): (s: string)
    ensures |s| > 0 && IsDigit(s[|s| - 1])
  {
    if n < 0 then "-" + NatToString(-n) else NatToString(n)
  }

  /** The directory of one scale: `os.path.join(dir, "Scale %d" % scale)`. */
  function ScaleDir(dir: string, scale: int): string
  {
    PathJoin(dir, "Scale " + DecimalString(scale))
  }

  /** A file of one scale: `os.path.join(dir, "Scale %d" % scale, name)`. */
  function ScalePath(dir: string, scale: int, name: string): string
  {
    PathJoin(ScaleDir(dir, scale), name)
  }

  /** The stripped path of a scale's file keeps a `/`. */
  lemma ScalePathSlash(dir: string, scale: int, name: string)
    requires '/' !in name
    ensures '/' in Strip(ScalePath(dir, scale, name))
  {
    ScalePathShape(dir, scale, name);
  }

  /** A name without `/` sits right under the scale directory and is its base name; the path has a `/` that survives strip(). */
  lemma ScalePathShape(dir: string, scale: int, name: string)
    requires '/' !in name
    ensures ScalePath(dir, scale, name) == ScaleDir(dir, scale) + "/" + name
    ensures Basename(ScalePath(dir, scale, name)) == name
    ensures '/' in Strip(ScalePath(dir, scale, name))
  {
    var leaf := "Scale " + DecimalString(scale);
    var d := ScaleDir(dir, scale);
    assert !StartsWith(leaf, "/") by {
      assert leaf[0] == 'S';
    }
    assert d[|d| - 1] == leaf[|leaf| - 1];
    assert !StartsWith(name, "/") by {
      if |name| > 0 {
        assert name[0] in name;
      }
    }
    var p := ScalePath(dir, scale, name);
    assert p[|d|] == '/';
    StripKeeps(p, |d|);
    BasenameOfJoin(d, name);
  }

  /** Where create_scale writes the scale of `source`: under its base name in the scale directory. */
  function Target(outDir: string, source: string): string
  {
    PathJoin(outDir, Basename(source))
  }

  /** The one file create_scale writes for an input file. */
  function Put(source: string, outDir: string, scale: nat, mulOrder: int, roundToInt: bool,
               read: Reader, files: map<string, seq<Written>>): map<string, seq<Written>>
    requires scale > 0
  {
    files[Target(outDir, source) := ScaleSeries(read(source), scale, mulOrder, roundToInt)]
  }

  /** The files one scale writes for the listed names still to visit, in listing order, on top of `files`. */
  function WriteAll(dir: string, filelist: seq<string>, outDir: string, scale: nat, mulOrder: int, roundToInt: bool,
                    read: Reader, files: map<string, seq<Written>>): map<string, seq<Written>>
    requires scale > 0
    decreases |filelist|
  {
    if filelist == [] then files
    else
      var next := Put(PathJoin(dir, Strip(filelist[0])), outDir, scale, mulOrder, roundToInt, read, files);
      WriteAll(dir, filelist[1..], outDir, scale, mulOrder, roundToInt, read, next)
  }

  /** One turn of create_scales: a scale whose directory exists is skipped; otherwise the directory is made and filled. */
  function ScaleStep(disk: Disk, input: Input, dest: string, scale: nat, mulOrder: int, roundToInt: bool, read: Reader): Disk
    requires scale > 0
  {
    var outDir := ScaleDir(dest, scale);
    if outDir in disk.dirs then disk
    else
      var files := match input
        case Directory(dir, names) => WriteAll(dir, Visible(names), outDir, scale, mulOrder, roundToInt, read, disk.files)
        case File(path) => Put(Strip(path), outDir, scale, mulOrder, roundToInt, read, disk.files);
      Disk(disk.dirs + {outDir}, files)
  }

  /** The disk after create_scales visits the given scales in order. */
  function Run(scales: seq<int>, disk: Disk, input: Input, dest: string, mulOrder: int, roundToInt: bool, read: Reader): Disk
    requires forall k :: 0 <= k < |scales| ==> scales[k] > 0
    decreases |scales|
  {
    if scales == [] then disk
    else Run(scales[1..], ScaleStep(disk, input, dest, scales[0], mulOrder, roundToInt, read), input, dest, mulOrder, roundToInt, read)
  }

  /**
   * What create_scales can be asked to do: every scale `range(start, stop,
   * step)` yields is positive. At a scale of 0 or less the window loop of
   * create_scale never ends. A zero step qualifies: range raises first.
   */
  predicate ScalesPositive(start: int, stop: int, step: int)
  {
    match StepRange(start, stop, step)
    case None => true
    case Some(scales) => forall k :: 0 <= k < |scales| ==> scales[k] > 0
  }

  /** A positive step from a positive start, or a negative step down to a non-negative stop, visits only positive scales. */
  lemma ScalesPositiveWhen(start: int, stop: int, step: int)
    requires (step > 0 && start >= 1) || (step < 0 && stop >= 0)
    ensures ScalesPositive(start, stop, step)
  {
  }

  /**
   * create_scales (tools/multiscale.py:92-113), for scales `range(start,
   * stop, step)`: a zero step raises ValueError before anything is written;
   * otherwise, scale after scale in range order, existing scale directories
   * are skipped, new ones created and filled from each visible name of a
   * directory or from the one file.
   */
  method CreateScales(input: Input, dest: string, start: int, stop: int, step: int, mulOrder: int, roundToInt: bool,
                      read: Reader, disk: Disk) returns (r: Result<Disk, MultiscaleError>)
    requires ScalesPositive(start, stop, step)
    ensures step == 0 ==> r == Err(ZeroStep)
    ensures step != 0 ==> r == Ok(Run(StepRange(start, stop, step).value, disk, input, dest, mulOrder, roundToInt, read))
  {
    var range := StepRange(start, stop, step);
    if range.None? {
      return Err(ZeroStep);
    }
    var scales := range.value;
    var after := disk;
    for i := 0 to |scales|
      invariant Run(scales[i..], after, input, dest, mulOrder, roundToInt, read) == Run(scales, disk, input, dest, mulOrder, roundToInt, read)
    {
      assert scales[i..][1..] == scales[i + 1..];
      after := CreateOneScale(input, dest, scales[i], mulOrder, roundToInt, read, after);
    }
    r := Ok(after);
  }

  /** One turn of the loop of create_scales: skip an existing directory, or create it and write the scale into it. */
  method CreateOneScale(input: Input, dest: string, scale: nat, mulOrder: int, roundToInt: bool, read: Reader, disk: Disk) returns (after: Disk)
    requires scale > 0
    ensures after == ScaleStep(disk, input, dest, scale, mulOrder, roundToInt, read)
  {
    var outDir := ScaleDir(dest, scale);
    if outDir in disk.dirs {
      return disk;
    }
    var files: map<string, seq<Written>>;
    match input {
      case Directory(dir, names) =>
        var filelist := ListdirNoHidden(names);
        files := WriteScale(dir, filelist, outDir, scale, mulOrder, roundToInt, read, disk.files);
      case File(path) =>
        var source := Strip(path);
        var out := CreateScale(read(source), scale, mulOrder, roundToInt);
        files := disk.files[Target(outDir, source) := out];
    }
    after := Disk(disk.dirs + {outDir}, files);
  }

  /** The inner loop of create_scales: create_scale for each name, in order. */
  method WriteScale(dir: string, filelist: seq<string>, outDir: string, scale: nat, mulOrder: int, roundToInt: bool,
                    read: Reader, files0: map<string, seq<Written>>) returns (files: map<string, seq<Written>>)
    requires scale > 0
    ensures files == WriteAll(dir, filelist, outDir, scale, mulOrder, roundToInt, read, files0)
  {
    files := files0;
    for k := 0 to |filelist|
      invariant WriteAll(dir, filelist[k..], outDir, scale, mulOrder, roundToInt, read, files)
             == WriteAll(dir, filelist, outDir, scale, mulOrder, roundToInt, read, files0)
    {
      assert filelist[k..][1..] == filelist[k + 1..];
      var source := PathJoin(dir, Strip(filelist[k]));
      var out := CreateScale(read(source), scale, mulOrder, roundToInt);
      files := files[Target(outDir, source) := out];
    }
  }

  /** One step leaves its scale's directory in place and removes none. */
  lemma ScaleStepDirs(disk: Disk, input: Input, dest: string, scale: nat, mulOrder: int, roundToInt: bool, read: Reader)
    requires scale > 0
    ensures ScaleStep(disk, input, dest, scale, mulOrder, roundToInt, read).dirs == disk.dirs + {ScaleDir(dest, scale)}
  {
  }

  /** Running the scales never removes a directory, and leaves every visited scale's directory in place. */
  lemma {:induction false} RunMakesDirs(scales: seq<int>, disk: Disk, input: Input, dest: string, mulOrder: int, roundToInt: bool, read: Reader)
    requires forall k :: 0 <= k < |scales| ==> scales[k] > 0
    ensures disk.dirs <= Run(scales, disk, input, dest, mulOrder, roundToInt, read).dirs
    ensures forall k :: 0 <= k < |scales| ==> ScaleDir(dest, scales[k]) in Run(scales, disk, input, dest, mulOrder, roundToInt, read).dirs
    decreases |scales|
  {
    if scales != [] {
      var next := ScaleStep(disk, input, dest, scales[0], mulOrder, roundToInt, read);
      ScaleStepDirs(disk, input, dest, scales[0], mulOrder, roundToInt, read);
      RunMakesDirs(scales[1..], next, input, dest, mulOrder, roundToInt, read);
      assert Run(scales, disk, input, dest, mulOrder, roundToInt, read) == Run(scales[1..], next, input, dest, mulOrder, roundToInt, read);
      forall k | 1 <= k < |scales|
        ensures ScaleDir(dest, scales[k]) in Run(scales, disk, input, dest, mulOrder, roundToInt, read).dirs
      {
        assert scales[k] == scales[1..][k - 1];
      }
    }
  }

  /** When every scale's directory already exists, create_scales changes nothing. */
  lemma {:induction false} RunSkipsExisting(scales: seq<int>, disk: Disk, input: Input, dest: string, mulOrder: int, roundToInt: bool, read: Reader)
    requires forall k :: 0 <= k < |scales| ==> scales[k] > 0
    requires forall k :: 0 <= k < |scales| ==> ScaleDir(dest, scales[k]) in disk.dirs
    ensures Run(scales, disk, input, dest, mulOrder, roundToInt, read) == disk
    decreases |scales|
  {
    if scales != [] {
      assert ScaleDir(dest, scales[0]) in disk.dirs;
      forall k | 0 <= k < |scales| - 1
        ensures ScaleDir(dest, scales[1..][k]) in disk.dirs
      {
        assert scales[1..][k] == scales[k + 1];
      }
      RunSkipsExisting(scales[1..], disk, input, dest, mulOrder, roundToInt, read);
    }
  }

  /** create_scales is idempotent: a second run over the same scales finds every directory and writes nothing. */
  lemma RunIdempotent(scales: seq<int>, disk: Disk, input: Input, dest: string, mulOrder: int, roundToInt: bool, read: Reader)
    requires forall k :: 0 <= k < |scales| ==> scales[k] > 0
    ensures var once := Run(scales, disk, input, dest, mulOrder, roundToInt, read);
      Run(scales, once, input, dest, mulOrder, roundToInt, read) == once
  {
    var once := Run(scales, disk, input, dest, mulOrder, roundToInt, read);
    RunMakesDirs(scales, disk, input, dest, mulOrder, roundToInt, read);
    RunSkipsExisting(scales, once, input, dest, mulOrder, roundToInt, read);
  }

  /** A new scale of a single file adds its directory and one file, named after the input, holding its scaled series. */
  lemma ScaleStepFile(disk: Disk, path: string, dest: string, scale: nat, mulOrder: int, roundToInt: bool, read: Reader)
    requires scale > 0 && ScaleDir(dest, scale) !in disk.dirs
    ensures var after := ScaleStep(disk, File(path), dest, scale, mulOrder, roundToInt, read);
      after.dirs == disk.dirs + {ScaleDir(dest, scale)}
      && Target(ScaleDir(dest, scale), Strip(path)) in after.files
      && after.files[Target(ScaleDir(dest, scale), Strip(path))] == ScaleSeries(read(Strip(path)), scale, mulOrder, roundToInt)
      && forall f :: f in disk.files && f != Target(ScaleDir(dest, scale), Strip(path)) ==> f in after.files && after.files[f] == disk.files[f]
  {
  }

  /** A new scale of a directory writes a file for exactly the visible names, each under its base name. */
  lemma {:induction false} WriteAllKeys(dir: string, filelist: seq<string>, outDir: string, scale: nat, mulOrder: int, roundToInt: bool,
                                        read: Reader, files: map<string, seq<Written>>, key: string)
    requires scale > 0
    ensures key in WriteAll(dir, filelist, outDir, scale, mulOrder, roundToInt, read, files)
      <==> key in files || exists k :: 0 <= k < |filelist| && key == Target(outDir, PathJoin(dir, Strip(filelist[k])))
    decreases |filelist|
  {
    if filelist != [] {
      var next := Put(PathJoin(dir, Strip(filelist[0])), outDir, scale, mulOrder, roundToInt, read, files);
      WriteAllKeys(dir, filelist[1..], outDir, scale, mulOrder, roundToInt, read, next, key);
      if exists k :: 0 <= k < |filelist| && key == Target(outDir, PathJoin(dir, Strip(filelist[k]))) {
        var k :| 0 <= k < |filelist| && key == Target(outDir, PathJoin(dir, Strip(filelist[k])));
        if k > 0 {
          assert filelist[1..][k - 1] == filelist[k];
        }
      }
      if exists k :: 0 <= k < |filelist| - 1 && key == Target(outDir, PathJoin(dir, Strip(filelist[1..][k]))) {
        var k :| 0 <= k < |filelist| - 1 && key == Target(outDir, PathJoin(dir, Strip(filelist[1..][k])));
        assert filelist[1..][k] == filelist[k + 1];
      }
    }
  }

  // ---------------------------------------------------------------- tables

  /** One entry of a compression row: a size in bytes, or the optional rate or time. */
  datatype Field = Size(bytes: int) | Measure(value: Option<real>)

  /**
   * Why a multiscale function raises: `range` refused a zero step
   * (ValueError), the compressor or estimator refused, or a dictionary
   * lookup missed.
   */
  datatype MultiscaleError = ZeroStep | CompressFailed | EntropyFailed | MissingKey(key: string)

  /** The row of one file over the scales still to visit, after `row`; the first failed lookup fails it. */
  function RowFrom<F>(scales: seq<int>, entry: int -> Result<seq<F>, MultiscaleError>, row: seq<F>): Result<seq<F>, MultiscaleError>
    decreases |scales|
  {
    if scales == [] then Ok(row)
    else
      match entry(scales[0])
      case Err(e) => Err(e)
      case Ok(fields) => RowFrom(scales[1..], entry, row + fields)
  }

  /** The table over the file names still to visit, on top of `table`; the first failed row fails it. */
  function TableFrom<F>(names: seq<string>, rowOf: string -> Result<seq<F>, MultiscaleError>, table: map<string, seq<F>>): Result<map<string, seq<F>>, MultiscaleError>
    decreases |names|
  {
    if names == [] then Ok(table)
    else
      match rowOf(names[0])
      case Err(e) => Err(e)
      case Ok(row) => TableFrom(names[1..], rowOf, table[names[0] := row])
  }

  /** A table over one name is that name's row. */
  lemma TableFromOne<F>(name: string, rowOf: string -> Result<seq<F>, MultiscaleError>, row: seq<F>)
    requires rowOf(name) == Ok(row)
    ensures TableFrom([name], rowOf, map[]) == Ok(map[name := row])
  {
    assert [name][1..] == [];
  }

  /** When scale `k` yields `lists[k]`, the row is `row` followed by those fields, scale after scale. */
  lemma {:induction false} RowFromAll<F>(scales: seq<int>, entry: int -> Result<seq<F>, MultiscaleError>, row: seq<F>, lists: seq<seq<F>>)
    requires |lists| == |scales|
    requires forall k :: 0 <= k < |scales| ==> entry(scales[k]) == Ok(lists[k])
    ensures RowFrom(scales, entry, row) == Ok(row + Concat(lists))
    decreases |scales|
  {
    if scales != [] {
      var rest := scales[1..];
      assert forall k :: 0 <= k < |rest| ==> rest[k] == scales[k + 1];
      assert forall k :: 0 <= k < |rest| ==> entry(rest[k]) == Ok(lists[1..][k]);
      RowFromAll(rest, entry, row + lists[0], lists[1..]);
      assert entry(scales[0]) == Ok(lists[0]);
      assert RowFrom(scales, entry, row) == RowFrom(rest, entry, row + lists[0]);
      assert row + lists[0] + Concat(lists[1..]) == row + Concat(lists);
    } else {
      assert row + Concat(lists) == row;
    }
  }

  /** Lists of `w` elements each concatenate to `w` times as many. */
  lemma {:induction false} ConcatUniform<F>(lists: seq<seq<F>>, w: nat)
    requires forall k :: 0 <= k < |lists| ==> |lists[k]| == w
    ensures |Concat(lists)| == |lists| * w
    decreases |lists|
  {
    if lists != [] {
      var rest := lists[1..];
      assert forall k :: 0 <= k < |rest| ==> rest[k] == lists[k + 1];
      ConcatUniform(rest, w);
      MulStep(|lists|, w);
    }
  }

  /** When every name's row can be built, the table maps exactly the names, each to its row. */
  lemma {:induction false} TableFromOk<F>(names: seq<string>, rowOf: string -> Result<seq<F>, MultiscaleError>, table: map<string, seq<F>>)
    requires forall k :: 0 <= k < |names| ==> rowOf(names[k]).Ok?
    ensures TableFrom(names, rowOf, table).Ok?
    ensures forall key :: key in TableFrom(names, rowOf, table).value <==> key in table || key in names
    ensures forall key :: key in names ==> TableFrom(names, rowOf, table).value[key] == rowOf(key).value
    ensures forall key :: key in table && key !in names ==> TableFrom(names, rowOf, table).value[key] == table[key]
    decreases |names|
  {
    if names != [] {
      var rest := names[1..];
      assert forall k :: 0 <= k < |rest| ==> rest[k] == names[k + 1];
      var next := table[names[0] := rowOf(names[0]).value];
      TableFromOk(rest, rowOf, next);
      assert TableFrom(names, rowOf, table) == TableFrom(rest, rowOf, next);
      assert forall key :: key in names <==> key == names[0] || key in rest;
    }
  }

  /** The names a table builder visits: the visible listing, or the base name of the one input file. */
  function TableNames(input: Input): seq<string>
  {
    match input
    case Directory(_, names) => Visible(names)
    case File(path) => [Basename(path)]
  }

  /** A table whose scale range raises: empty when there is no name to loop over, ValueError otherwise. */
  function ZeroStepTable<F>(input: Input): (r: Result<map<string, seq<F>>, MultiscaleError>)
    ensures r.Ok? <==> TableNames(input) == []
    ensures r.Ok? ==> r.value == map[]
    ensures r.Err? ==> r.error == ZeroStep
  {
    if TableNames(input) == [] then Ok(map[]) else Err(ZeroStep)
  }

  // ---------------------------------------------------- multiscale_compression

  /** The fixed settings of multiscale_compression. */
  datatype CompressJob = CompressJob(scalesDir: string, algorithm: string, level: Option<int>, available: map<string, Compress.LevelRange>,
                                     backend: (string, int) -> Compress.CompressionData, withRate: bool, decompress: bool)

  /** How many fields each scale adds to a compression row. */
  function Width(withRate: bool, decompress: bool): nat
  {
    2 + (if withRate then 1 else 0) + (if decompress then 1 else 0)
  }

  /** The fields one scale adds: original and compressed size, then the rate and the time when asked for. */
  function Fields(d: Compress.CompressionData, withRate: bool, decompress: bool): (r: seq<Field>)
    ensures |r| == Width(withRate, decompress)
  {
    [Size(d.original), Size(d.compressed)] + (if withRate then [Measure(d.rate)] else []) + (if decompress then [Measure(d.time)] else [])
  }

  /**
   * One scale of one file in multiscale_compression (tools/multiscale.py:145-155
   * and 164-176): compress the file of that scale and read the answer. As
   * written, the answer is looked up under the bare file name; `asWritten ==
   * false` looks it up under the key compress gives a single file.
   */
  function CompressionLookup(scale: int, name: string, job: CompressJob, asWritten: bool): Result<seq<Field>, MultiscaleError>
  {
    var path := ScalePath(job.scalesDir, scale, name);
    match Compress.CompressTable(Compress.File(path), job.algorithm, job.level, job.available, job.backend)
    case Err(_) => Err(CompressFailed)
    case Ok(results) =>
      var key := if asWritten then name else Strip(path);
      if key in results then Ok(Fields(results[key], job.withRate, job.decompress)) else Err(MissingKey(key))
  }

  /** The lookup of one file, as a function of the scale. */
  function CompressionEntry(name: string, job: CompressJob, asWritten: bool): int -> Result<seq<Field>, MultiscaleError>
  {
    scale => CompressionLookup(scale, name, job, asWritten)
  }

  /** The row of one file, as a function of its name. */
  function CompressionRowOf(job: CompressJob, scales: seq<int>, asWritten: bool): string -> Result<seq<Field>, MultiscaleError>
  {
    name => RowFrom(scales, CompressionEntry(name, job, asWritten), [])
  }

  /** multiscale_compression over the given scales, with the lookup as written or corrected. */
  function CompressionTable(input: Input, job: CompressJob, scales: seq<int>, asWritten: bool): Result<map<string, seq<Field>>, MultiscaleError>
  {
    TableFrom(TableNames(input), CompressionRowOf(job, scales, asWritten), map[])
  }

  /** The key compress gives a single file of a scale is never a name without `/`, so the lookup as written misses. */
  lemma CompressionLookupMisses(scale: int, name: string, job: CompressJob)
    requires '/' !in name
    ensures CompressionLookup(scale, name, job, true).Err?
  {
    var path := ScalePath(job.scalesDir, scale, name);
    var results := Compress.CompressTable(Compress.File(path), job.algorithm, job.level, job.available, job.backend);
    if results.Ok? {
      assert name !in results.value by {
        ScalePathSlash(job.scalesDir, scale, name);
        Compress.FileKey(path, job.algorithm, job.level, job.available, job.backend);
      }
    }
  }

  /**
   * As written, multiscale_compression fails on its first lookup: compress
   * keys a single file by its whole path, which has a `/` that no listed
   * or base name has.
   */
  lemma CompressionAsWrittenFails(input: Input, job: CompressJob, scales: seq<int>)
    requires scales != [] && TableNames(input) != []
    requires input.Directory? ==> '/' !in TableNames(input)[0]
    ensures CompressionTable(input, job, scales, true).Err?
  {
    var name := TableNames(input)[0];
    CompressionLookupMisses(scales[0], name, job);
    assert RowFrom(scales, CompressionEntry(name, job, true), []).Err?;
  }

  /** The answer compress gives for `name` at one scale, under the clamped level. */
  function ScaleData(scale: int, name: string, job: CompressJob): Compress.CompressionData
    requires job.algorithm in job.available
  {
    job.backend(Strip(ScalePath(job.scalesDir, scale, name)), Compress.ClampLevel(job.level, job.available[job.algorithm]))
  }

  /** Looked up under the key compress uses, each scale yields the fields of the compressor's answer for that scale's file. */
  lemma CompressionLookupHits(scale: int, name: string, job: CompressJob)
    requires job.algorithm in job.available
    ensures CompressionLookup(scale, name, job, false) == Ok(Fields(ScaleData(scale, name, job), job.withRate, job.decompress))
  {
  }

  /** The fields of each scale of one file, in scale order. */
  function ScaleFields(scales: seq<int>, name: string, job: CompressJob): seq<seq<Field>>
    requires job.algorithm in job.available
  {
    seq(|scales|, k requires 0 <= k < |scales| => Fields(ScaleData(scales[k], name, job), job.withRate, job.decompress))
  }

  /** Corrected, the row of one file is the fields of every scale, in scale order. */
  lemma CompressionRowCorrected(name: string, job: CompressJob, scales: seq<int>)
    requires job.algorithm in job.available
    ensures CompressionRowOf(job, scales, false)(name) == Ok(Concat(ScaleFields(scales, name, job)))
    ensures |Concat(ScaleFields(scales, name, job))| == |scales| * Width(job.withRate, job.decompress)
  {
    var lists := ScaleFields(scales, name, job);
    forall k | 0 <= k < |scales|
      ensures CompressionEntry(name, job, false)(scales[k]) == Ok(lists[k])
    {
      CompressionLookupHits(scales[k], name, job);
    }
    RowFromAll(scales, CompressionEntry(name, job, false), [], lists);
    assert [] + Concat(lists) == Concat(lists);
    ConcatUniform(lists, Width(job.withRate, job.decompress));
  }

  /** Corrected, a table over any names maps exactly those names, each to its row. */
  lemma CompressionTableOk(names: seq<string>, job: CompressJob, scales: seq<int>)
    requires job.algorithm in job.available
    ensures var t := TableFrom(names, CompressionRowOf(job, scales, false), map[]);
      t.Ok? && (forall key :: key in t.value <==> key in names)
      && forall name :: name in names ==> t.value[name] == Concat(ScaleFields(scales, name, job))
  {
    var rowOf := CompressionRowOf(job, scales, false);
    forall name | name in names
      ensures rowOf(name) == Ok(Concat(ScaleFields(scales, name, job)))
    {
      CompressionRowCorrected(name, job, scales);
    }
    TableFromOk(names, rowOf, map[]);
  }

  /**
   * Corrected, the table maps exactly the names; each row is the fields of
   * every scale in range order (original size, compressed size, then the
   * rate and the time when asked for), `Width` fields to a scale.
   */
  lemma CompressionCorrected(input: Input, job: CompressJob, scales: seq<int>, name: string)
    requires job.algorithm in job.available
    ensures CompressionTable(input, job, scales, false).Ok?
    ensures forall key :: key in CompressionTable(input, job, scales, false).value <==> key in TableNames(input)
    ensures name in TableNames(input) ==>
      CompressionTable(input, job, scales, false).value[name] == Concat(ScaleFields(scales, name, job))
      && |CompressionTable(input, job, scales, false).value[name]| == |scales| * Width(job.withRate, job.decompress)
  {
    CompressionTableOk(TableNames(input), job, scales);
    CompressionRowCorrected(name, job, scales);
  }

  /**
   * multiscale_compression (tools/multiscale.py:140-178) with the lookup
   * corrected: for each name, for each scale of `range(start, stop, step)`
   * in range order, compress that scale's file and append the fields of its
   * answer. The range is taken inside the loop over names, so a zero step
   * raises ValueError at the first name, and not at all when there is none.
   */
  method MultiscaleCompression(input: Input, job: CompressJob, start: int, stop: int, step: int) returns (r: Result<map<string, seq<Field>>, MultiscaleError>)
    ensures step == 0 ==> r == ZeroStepTable(input)
    ensures step != 0 ==> r == CompressionTable(input, job, StepRange(start, stop, step).value, false)
  {
    var filelist := FileList(input);
    var range := StepRange(start, stop, step);
    if range.None? {
      return if filelist == [] then Ok(map[]) else Err(ZeroStep);
    }
    var scales := range.value;
    var rowOf := CompressionRowOf(job, scales, false);
    var table := map[];
    for i := 0 to |filelist|
      invariant TableFrom(filelist[i..], rowOf, table) == TableFrom(filelist, rowOf, map[])
    {
      assert filelist[i..][1..] == filelist[i + 1..];
      var row := CompressionRow(filelist[i], job, scales);
      if row.Err? {
        return Err(row.error);
      }
      table := table[filelist[i] := row.value];
    }
    r := Ok(table);
  }

  /** The inner loop of multiscale_compression: one file's fields over the scales. */
  method CompressionRow(name: string, job: CompressJob, scales: seq<int>) returns (r: Result<seq<Field>, MultiscaleError>)
    ensures r == CompressionRowOf(job, scales, false)(name)
  {
    var entry := CompressionEntry(name, job, false);
    var row := [];
    for j := 0 to |scales|
      invariant RowFrom(scales[j..], entry, row) == RowFrom(scales, entry, [])
    {
      assert scales[j..][1..] == scales[j + 1..];
      var path := ScalePath(job.scalesDir, scales[j], name);
      var results := Compress.Compress(Compress.File(path), job.algorithm, job.level, job.available, job.backend);
      if results.Err? {
        return Err(CompressFailed);
      }
      var key := Strip(path);
      if key !in results.value {
        return Err(MissingKey(key));
      }
      row := row + Fields(results.value[key], job.withRate, job.decompress);
    }
    r := Ok(row);
  }

  // ------------------------------------------------------- multiscale_entropy

  /**
   * The fixed settings of multiscale_entropy; `listing` is what the
   * directory of the start scale lists, and `std` the standard deviation
   * calculate_std takes of a file's values.
   */
  datatype EntropyJob = EntropyJob(scalesDir: string, start: int, algorithm: string, dimension: nat, tolerance: real,
                                   listing: seq<string>, read: Entropy.Reader, estimator: Entropy.Estimator, std: seq<real> -> real)

  /** Where the directory branch reads its scales: `"%s_Scales" % input_name`, whatever the scales directory. */
  function ScalesOf(dir: string): string
  {
    dir + "_Scales"
  }

  /** The standard deviations the tolerances come from: of the start scale's directory, or of the one file at the start scale. */
  function Stds(input: Input, job: EntropyJob): map<string, real>
  {
    match input
    case Directory(dir, _) => Entropy.StdTable(Entropy.Directory(ScaleDir(ScalesOf(dir), job.start), job.listing), job.read, job.std)
    case File(path) => Entropy.StdTable(Entropy.File(ScalePath(job.scalesDir, job.start, Basename(path))), job.read, job.std)
  }

  /**
   * The tolerance of each file, computed once before the scales are
   * visited (tools/multiscale.py:205-206, 216-219): a directory scales
   * every deviation of the start scale; a file keys the one deviation by
   * its base name.
   */
  function Tolerances(input: Input, job: EntropyJob): map<string, real>
  {
    var stds := Stds(input, job);
    match input
    case Directory(_, _) => ScaleAll(stds, job.tolerance)
    case File(path) =>
      var forStd := ScalePath(job.scalesDir, job.start, Basename(path));
      map[Basename(path) := Scaled(stds[forStd], job.tolerance)]
  }

  /** A deviation scaled by the tolerance asked for. */
  function Scaled(std: real, tolerance: real): real
  {
    std * tolerance
  }

  /** Every deviation of a table scaled by the tolerance asked for. */
  function ScaleAll(stds: map<string, real>, tolerance: real): map<string, real>
  {
    map f | f in stds :: Scaled(stds[f], tolerance)
  }

  /** The single entry of an entropy table: a missing key or a failed estimate fails the lookup. */
  function Pick(results: Result<map<string, Entropy.EntropyData>, Entropy.EntropyError>, key: string): Result<seq<real>, MultiscaleError>
  {
    match results
    case Err(_) => Err(EntropyFailed)
    case Ok(table) => if key in table then Ok([table[key].entropy]) else Err(MissingKey(key))
  }

  /**
   * One scale of one file in multiscale_entropy (tools/multiscale.py:207-230).
   * The name's tolerance must be known; entropy runs on the scale's file,
   * and the answer is looked up, as written, under the scale's path for a
   * directory and under the name for a file. `asWritten == false` looks
   * every answer up under the key entropy gives a single file, its base name.
   */
  function EntropyLookup(scale: int, name: string, input: Input, job: EntropyJob, tolerances: map<string, real>, asWritten: bool): Result<seq<real>, MultiscaleError>
  {
    if name !in tolerances then Err(MissingKey(name))
    else
      var base := if input.Directory? then ScalesOf(input.path) else job.scalesDir;
      var path := ScalePath(base, scale, name);
      var results := Entropy.EntropyTable(Entropy.File(path), job.algorithm, job.dimension, [(name, tolerances[name])], job.read, job.estimator);
      Pick(results, if !asWritten then Basename(path) else if input.Directory? then path else name)
  }

  /** The lookup of one file, as a function of the scale. */
  function EntropyEntry(name: string, input: Input, job: EntropyJob, tolerances: map<string, real>, asWritten: bool): int -> Result<seq<real>, MultiscaleError>
  {
    scale => EntropyLookup(scale, name, input, job, tolerances, asWritten)
  }

  /** The row of one file, as a function of its name. */
  function EntropyRowOf(input: Input, job: EntropyJob, tolerances: map<string, real>, scales: seq<int>, asWritten: bool): string -> Result<seq<real>, MultiscaleError>
  {
    name => RowFrom(scales, EntropyEntry(name, input, job, tolerances, asWritten), [])
  }

  /** multiscale_entropy over the given scales, with the lookup as written or corrected. */
  function EntropyTable(input: Input, job: EntropyJob, scales: seq<int>, asWritten: bool): Result<map<string, seq<real>>, MultiscaleError>
  {
    TableFrom(TableNames(input), EntropyRowOf(input, job, Tolerances(input, job), scales, asWritten), map[])
  }

  /**
   * multiscale_entropy (tools/multiscale.py:202-232) with the lookup
   * corrected: the tolerances are computed once from the start scale; then,
   * for each name, for each scale of `range(start, stop, step)` in range
   * order, entropy runs on that scale's file and its value is appended. The
   * range is taken inside the loop over names, so a zero step raises
   * ValueError at the first name, and not at all when there is none.
   */
  method MultiscaleEntropy(input: Input, job: EntropyJob, stop: int, step: int) returns (r: Result<map<string, seq<real>>, MultiscaleError>)
    ensures step == 0 ==> r == ZeroStepTable(input)
    ensures step != 0 ==> r == EntropyTable(input, job, StepRange(job.start, stop, step).value, false)
  {
    var range := StepRange(job.start, stop, step);
    if range.None? {
      var filelist := FileList(input);
      return if filelist == [] then Ok(map[]) else Err(ZeroStep);
    }
    r := EntropyRows(input, job, range.value);
  }

  /** The names multiscale_entropy and multiscale_compression loop over: the visible names, or the one file's base name. */
  method FileList(input: Input) returns (filelist: seq<string>)
    ensures filelist == TableNames(input)
  {
    match input {
      case Directory(_, names) => filelist := ListdirNoHidden(names);
      case File(path) => filelist := [Basename(path)];
    }
  }

  /** The loops of multiscale_entropy over a non-raising range of scales. */
  method EntropyRows(input: Input, job: EntropyJob, scales: seq<int>) returns (r: Result<map<string, seq<real>>, MultiscaleError>)
    ensures r == EntropyTable(input, job, scales, false)
  {
    var tolerances := ComputeTolerances(input, job);
    var filelist := FileList(input);
    var rowOf := EntropyRowOf(input, job, tolerances, scales, false);
    var table := map[];
    for i := 0 to |filelist|
      invariant TableFrom(filelist[i..], rowOf, table) == TableFrom(filelist, rowOf, map[])
    {
      assert filelist[i..][1..] == filelist[i + 1..];
      var row := EntropyRow(filelist[i], input, job, tolerances, scales);
      if row.Err? {
        return Err(row.error);
      }
      table := table[filelist[i] := row.value];
    }
    r := Ok(table);
  }

  /** The tolerances of multiscale_entropy, from the deviations calculate_std gives at the start scale. */
  method ComputeTolerances(input: Input, job: EntropyJob) returns (tolerances: map<string, real>)
    ensures tolerances == Tolerances(input, job)
  {
    match input {
      case Directory(dir, _) =>
        var stds := Entropy.CalculateStd(Entropy.Directory(ScaleDir(ScalesOf(dir), job.start), job.listing), job.read, job.std);
        tolerances := ScaleAll(stds, job.tolerance);
      case File(path) =>
        var forStd := ScalePath(job.scalesDir, job.start, Basename(path));
        var stds := Entropy.CalculateStd(Entropy.File(forStd), job.read, job.std);
        tolerances := map[Basename(path) := Scaled(stds[forStd], job.tolerance)];
    }
  }

  /** The inner loop of multiscale_entropy: one file's entropies over the scales. */
  method EntropyRow(name: string, input: Input, job: EntropyJob, tolerances: map<string, real>, scales: seq<int>) returns (r: Result<seq<real>, MultiscaleError>)
    ensures r == EntropyRowOf(input, job, tolerances, scales, false)(name)
  {
    ghost var entry := EntropyEntry(name, input, job, tolerances, false);
    var row := [];
    for j := 0 to |scales|
      invariant RowFrom(scales[j..], entry, row) == RowFrom(scales, entry, [])
    {
      assert scales[j..][1..] == scales[j + 1..];
      var v := EntropyAt(scales[j], name, input, job, tolerances);
      assert entry(scales[j]) == v;
      if v.Err? {
        return Err(v.error);
      }
      row := row + v.value;
    }
    r := Ok(row);
  }

  /** One pass of that loop: entropy on the scale's file, looked up under its base name. */
  method EntropyAt(scale: int, name: string, input: Input, job: EntropyJob, tolerances: map<string, real>) returns (v: Result<seq<real>, MultiscaleError>)
    ensures v == EntropyLookup(scale, name, input, job, tolerances, false)
  {
    if name !in tolerances {
      return Err(MissingKey(name));
    }
    var base := if input.Directory? then ScalesOf(input.path) else job.scalesDir;
    var path := ScalePath(base, scale, name);
    var results := Entropy.ComputeEntropy(Entropy.File(path), job.algorithm, job.dimension, [(name, tolerances[name])], job.read, job.estimator);
    if results.Err? {
      return Err(EntropyFailed);
    }
    var key := Basename(path);
    if key !in results.value {
      return Err(MissingKey(key));
    }
    v := Ok([results.value[key].entropy]);
  }

  /**
   * As written, the directory branch of multiscale_entropy fails on every
   * lookup: entropy keys a single file by its base name, and the answer is
   * looked up under the whole path.
   */
  lemma EntropyLookupMisses(scale: int, name: string, dir: string, names: seq<string>, job: EntropyJob, tolerances: map<string, real>)
    requires '/' !in name
    ensures EntropyLookup(scale, name, Directory(dir, names), job, tolerances, true).Err?
  {
    if name in tolerances {
      var path := ScalePath(ScalesOf(dir), scale, name);
      var results := Entropy.EntropyTable(Entropy.File(path), job.algorithm, job.dimension, [(name, tolerances[name])], job.read, job.estimator);
      if results.Ok? {
        assert path !in results.value by {
          ScalePathShape(ScalesOf(dir), scale, name);
          Entropy.FileKeyIsBasename(ScaleDir(ScalesOf(dir), scale), name, job.algorithm, job.dimension, [(name, tolerances[name])], job.read, job.estimator);
          assert path != name by {
            assert |path| > |name|;
          }
        }
      }
    }
  }

  /**
   * As written, the directory branch of multiscale_entropy fails on its first
   * lookup: it asks for the joined scale path, and entropy keys its table by
   * base name.
   */
  lemma EntropyAsWrittenFails(dir: string, names: seq<string>, job: EntropyJob, scales: seq<int>)
    requires scales != [] && Visible(names) != [] && '/' !in Visible(names)[0]
    ensures EntropyTable(Directory(dir, names), job, scales, true).Err?
  {
    var name := Visible(names)[0];
    var tolerances := Tolerances(Directory(dir, names), job);
    EntropyLookupMisses(scales[0], name, dir, names, job, tolerances);
    assert RowFrom(scales, EntropyEntry(name, Directory(dir, names), job, tolerances, true), []).Err?;
  }

  /** Lists of one element each concatenate to the list of those elements. */
  lemma {:induction false} ConcatSingletons<F>(lists: seq<seq<F>>)
    requires forall k :: 0 <= k < |lists| ==> |lists[k]| == 1
    ensures |Concat(lists)| == |lists|
    ensures forall k :: 0 <= k < |lists| ==> Concat(lists)[k] == lists[k][0]
    decreases |lists|
  {
    if lists != [] {
      var rest := lists[1..];
      assert forall k :: 0 <= k < |rest| ==> rest[k] == lists[k + 1];
      ConcatSingletons(rest);
    }
  }

  /** The entropy of `name`'s file at one scale under `base`, with the given tolerance. */
  function ScaleEntropy(scale: int, name: string, base: string, tolerance: real, job: EntropyJob): real
  {
    job.estimator(job.algorithm, job.read(Strip(ScalePath(base, scale, name))), job.dimension, tolerance)
  }

  /** The tolerance of a listed file: its deviation at the start scale, times the tolerance asked for. */
  function DirectoryTolerance(dir: string, name: string, job: EntropyJob): real
  {
    Scaled(job.std(job.read(PathJoin(ScaleDir(ScalesOf(dir), job.start), name))), job.tolerance)
  }

  /** Every visible file listed at the start scale has a tolerance: its own deviation there, times the one asked for. */
  lemma DirectoryToleranceOf(dir: string, names: seq<string>, job: EntropyJob, name: string)
    requires name in job.listing && !Hidden(name)
    ensures var t := Tolerances(Directory(dir, names), job); name in t && t[name] == DirectoryTolerance(dir, name, job)
  {
    var startDir := ScaleDir(ScalesOf(dir), job.start);
    var stds := Stds(Directory(dir, names), job);
    assert stds == Entropy.StdDirectory(startDir, job.listing, job.read, job.std);
    Entropy.StdDirectoryKeys(startDir, job.listing, job.read, job.std, name);
    Entropy.StdDirectoryValue(startDir, job.listing, job.read, job.std, name);
  }

  /** The tolerance of a single file: its deviation at the start scale, times the tolerance asked for. */
  function FileTolerance(name: string, job: EntropyJob): real
  {
    Scaled(job.std(job.read(ScalePath(job.scalesDir, job.start, name))), job.tolerance)
  }

  /** A single file has exactly one tolerance, under its base name. */
  lemma FileToleranceOf(path: string, job: EntropyJob)
    ensures Tolerances(File(path), job) == map[Basename(path) := FileTolerance(Basename(path), job)]
  {
  }

  /** Corrected, a name with a tolerance yields, at each scale, the entropy of that scale's file with that tolerance. */
  lemma EntropyLookupHits(scale: int, name: string, input: Input, job: EntropyJob, tolerances: map<string, real>)
    requires job.algorithm in Entropy.ALGORITHMS && name in tolerances && '/' !in name
    ensures var base := if input.Directory? then ScalesOf(input.path) else job.scalesDir;
      EntropyLookup(scale, name, input, job, tolerances, false) == Ok([ScaleEntropy(scale, name, base, tolerances[name], job)])
  {
    var base := if input.Directory? then ScalesOf(input.path) else job.scalesDir;
    ScalePathShape(base, scale, name);
    Entropy.FileKeyIsBasename(ScaleDir(base, scale), name, job.algorithm, job.dimension, [(name, tolerances[name])], job.read, job.estimator);
  }

  /** The entropies of one file under `base`, scale after scale, with one tolerance. */
  function Entropies(scales: seq<int>, name: string, base: string, tolerance: real, job: EntropyJob): seq<seq<real>>
  {
    seq(|scales|, k requires 0 <= k < |scales| => [ScaleEntropy(scales[k], name, base, tolerance, job)])
  }

  /** Corrected, the row of a name with a tolerance is its entropy at every scale, in scale order. */
  lemma EntropyRowCorrected(name: string, input: Input, job: EntropyJob, tolerances: map<string, real>, scales: seq<int>)
    requires job.algorithm in Entropy.ALGORITHMS && name in tolerances && '/' !in name
    ensures var base := if input.Directory? then ScalesOf(input.path) else job.scalesDir;
      var row := Concat(Entropies(scales, name, base, tolerances[name], job));
      EntropyRowOf(input, job, tolerances, scales, false)(name) == Ok(row)
      && |row| == |scales| && forall k :: 0 <= k < |scales| ==> row[k] == ScaleEntropy(scales[k], name, base, tolerances[name], job)
  {
    var base := if input.Directory? then ScalesOf(input.path) else job.scalesDir;
    var lists := Entropies(scales, name, base, tolerances[name], job);
    forall k | 0 <= k < |scales|
      ensures EntropyEntry(name, input, job, tolerances, false)(scales[k]) == Ok(lists[k])
    {
      EntropyLookupHits(scales[k], name, input, job, tolerances);
    }
    RowFromAll(scales, EntropyEntry(name, input, job, tolerances, false), [], lists);
    assert [] + Concat(lists) == Concat(lists);
    ConcatSingletons(lists);
  }

  /** Corrected, a table over names that all have tolerances maps exactly those names, each to its row. */
  lemma EntropyTableOk(filelist: seq<string>, input: Input, job: EntropyJob, tolerances: map<string, real>, scales: seq<int>)
    requires job.algorithm in Entropy.ALGORITHMS
    requires forall name :: name in filelist ==> name in tolerances && '/' !in name
    ensures var base := if input.Directory? then ScalesOf(input.path) else job.scalesDir;
      var t := TableFrom(filelist, EntropyRowOf(input, job, tolerances, scales, false), map[]);
      t.Ok? && (forall key :: key in t.value <==> key in filelist)
      && forall name :: name in filelist ==> t.value[name] == Concat(Entropies(scales, name, base, tolerances[name], job))
  {
    var base := if input.Directory? then ScalesOf(input.path) else job.scalesDir;
    var rowOf := EntropyRowOf(input, job, tolerances, scales, false);
    forall name | name in filelist
      ensures rowOf(name) == Ok(Concat(Entropies(scales, name, base, tolerances[name], job)))
    {
      EntropyRowCorrected(name, input, job, tolerances, scales);
    }
    TableFromOk(filelist, rowOf, map[]);
  }

  /**
   * Corrected, the directory table maps exactly the visible names; entry
   * `k` of a file's row is its entropy at scale `k`, with the tolerance of
   * the start scale used at every scale.
   */
  lemma EntropyCorrected(dir: string, names: seq<string>, job: EntropyJob, scales: seq<int>, name: string)
    requires job.algorithm in Entropy.ALGORITHMS
    requires forall n :: n in Visible(names) ==> n in job.listing && '/' !in n
    ensures EntropyTable(Directory(dir, names), job, scales, false).Ok?
    ensures forall key :: key in EntropyTable(Directory(dir, names), job, scales, false).value <==> key in Visible(names)
    ensures name in Visible(names) ==>
      var row := EntropyTable(Directory(dir, names), job, scales, false).value[name];
      |row| == |scales| && forall k :: 0 <= k < |scales| ==> row[k] == ScaleEntropy(scales[k], name, ScalesOf(dir), DirectoryTolerance(dir, name, job), job)
  {
    var input := Directory(dir, names);
    var tolerances := Tolerances(input, job);
    forall n | n in Visible(names)
      ensures n in tolerances && '/' !in n
    {
      VisibleMembers(names, n);
      DirectoryToleranceOf(dir, names, job, n);
    }
    EntropyTableOk(Visible(names), input, job, tolerances, scales);
    if name in Visible(names) {
      VisibleMembers(names, name);
      DirectoryToleranceOf(dir, names, job, name);
      EntropyRowCorrected(name, input, job, tolerances, scales);
    }
  }

  /** A single file's lookup works as written: its answer is keyed by its name, the base name of each scale's path. */
  lemma EntropyFileLookup(scale: int, name: string, path: string, job: EntropyJob, tolerances: map<string, real>)
    requires '/' !in name
    ensures EntropyLookup(scale, name, File(path), job, tolerances, true) == EntropyLookup(scale, name, File(path), job, tolerances, false)
  {
    ScalePathShape(job.scalesDir, scale, name);
  }

  /** As written, each scale of a single file with a tolerance yields the entropy of that scale's file. */
  lemma EntropyFileEntry(scale: int, path: string, job: EntropyJob, tolerances: map<string, real>)
    requires job.algorithm in Entropy.ALGORITHMS && Basename(path) in tolerances
    ensures var name := Basename(path);
      EntropyEntry(name, File(path), job, tolerances, true)(scale) == Ok([ScaleEntropy(scale, name, job.scalesDir, tolerances[name], job)])
  {
    var name := Basename(path);
    EntropyFileLookup(scale, name, path, job, tolerances);
    EntropyLookupHits(scale, name, File(path), job, tolerances);
  }

  /** As written, a single file's row is the same as the corrected one. */
  lemma EntropyFileRowAsWritten(path: string, job: EntropyJob, tolerances: map<string, real>, scales: seq<int>)
    requires job.algorithm in Entropy.ALGORITHMS && Basename(path) in tolerances
    ensures var name := Basename(path);
      EntropyRowOf(File(path), job, tolerances, scales, true)(name) == Ok(Concat(Entropies(scales, name, job.scalesDir, tolerances[name], job)))
  {
    var name := Basename(path);
    var input := File(path);
    var lists := Entropies(scales, name, job.scalesDir, tolerances[name], job);
    forall k | 0 <= k < |scales|
      ensures EntropyEntry(name, input, job, tolerances, true)(scales[k]) == Ok(lists[k])
    {
      EntropyFileEntry(scales[k], path, job, tolerances);
    }
    RowFromAll(scales, EntropyEntry(name, input, job, tolerances, true), [], lists);
    assert [] + Concat(lists) == Concat(lists);
  }

  /**
   * For a single file, multiscale_entropy as written and corrected agree:
   * one row under the file's base name, entry `k` the entropy at scale `k`
   * with the start scale's tolerance.
   */
  lemma EntropyFileTable(path: string, job: EntropyJob, scales: seq<int>)
    requires job.algorithm in Entropy.ALGORITHMS
    ensures var name := Basename(path);
      var row := Concat(Entropies(scales, name, job.scalesDir, FileTolerance(name, job), job));
      EntropyTable(File(path), job, scales, true) == EntropyTable(File(path), job, scales, false) == Ok(map[name := row])
      && |row| == |scales|
      && forall k :: 0 <= k < |scales| ==> row[k] == ScaleEntropy(scales[k], name, job.scalesDir, FileTolerance(name, job), job)
  {
    var name := Basename(path);
    var input := File(path);
    var tolerances := Tolerances(input, job);
    FileToleranceOf(path, job);
    var row := Concat(Entropies(scales, name, job.scalesDir, tolerances[name], job));
    EntropyRowCorrected(name, input, job, tolerances, scales);
    EntropyFileRowAsWritten(path, job, tolerances, scales);
    TableFromOne(name, EntropyRowOf(input, job, tolerances, scales, true), row);
    TableFromOne(name, EntropyRowOf(input, job, tolerances, scales, false), row);
  }
}
