// tools/filter.py: clean_file turns the lines of a record into the heart
// rate column (optionally with its time stamp), skipping headers, rescaling
// values given in thousandths and optionally dropping lines outside the
// physiological limits; ds_filter does so for a file or every visible file
// of a directory.

module Filter {
  import opened Builtins
  import opened UtilityFunctions

  /** A cleaned value as written: `%d` truncates, `%.3f` keeps the value. */
  datatype Cell = Whole(n: int) | Fixed(x: real)

  /** One output line: the time token when it is kept, then the value. */
  datatype OutLine = OutLine(time: Option<string>, value: Cell)

  /** The exceptions clean_file does not catch: a missing token, or a second token that is not a number. */
  datatype FilterError = IndexError | ValueError

  const LOWER_LIMIT: real := 50.0
  const UPPER_LIMIT: real := 250.0

  /** The options of clean_file. */
  datatype Options = Options(keepTime: bool, applyLimits: bool, roundToInt: bool)

  /** The number a cell stands for. */
  function CellValue(c: Cell): real
  {
    match c
    case Whole(n) => n as real
    case Fixed(x) => x
  }

  /** A heart rate of 1000 or more is in thousandths: it becomes `round(hrf / 1000)`. */
  function Rescaled(hrf: real): real
  {
    if hrf >= 1000.0 then Round(hrf / 1000.0) as real else hrf
  }

  /** The value as the chosen format writes it. */
  function Format(hrf: real, roundToInt: bool): Cell
  {
    if roundToInt then Whole(Trunc(hrf)) else Fixed(hrf)
  }

  /** Whether a (rescaled) heart rate is within the limits. */
  predicate InLimits(hrf: real)
  {
    LOWER_LIMIT <= hrf <= UPPER_LIMIT
  }

  /**
   * One line of clean_file (tools/filter.py:91-112), given its tokens: a
   * line whose first token is not a number is a header and yields nothing;
   * otherwise the second token is the heart rate, rescaled, then written
   * unless the limits are applied and it is outside them.
   */
  function CleanLine(tokens: seq<string>, opts: Options): Result<Option<OutLine>, FilterError>
  {
    if tokens == [] then Err(IndexError)
    else if ParseReal(tokens[0]).None? then Ok(None)
    else if |tokens| < 2 then Err(IndexError)
    else
      match ParseReal(tokens[1])
      case None => Err(ValueError)
      case Some(v) =>
        var hrf := Rescaled(v);
        if opts.applyLimits && !InLimits(hrf) then Ok(None)
        else Ok(Some(OutLine(if opts.keepTime then Some(tokens[0]) else None, Format(hrf, opts.roundToInt))))
  }

  /** The lines written after `out` for the remaining `lines`; the first failing line ends the file. */
  function CleanFrom(lines: seq<seq<string>>, opts: Options, out: seq<OutLine>): Result<seq<OutLine>, FilterError>
    decreases |lines|
  {
    if lines == [] then Ok(out)
    else
      match CleanLine(lines[0], opts)
      case Err(e) => Err(e)
      case Ok(None) => CleanFrom(lines[1..], opts, out)
      case Ok(Some(o)) => CleanFrom(lines[1..], opts, out + [o])
  }

  /** clean_file on the token lists of a file's lines. */
  function Clean(lines: seq<seq<string>>, opts: Options): Result<seq<OutLine>, FilterError>
  {
    CleanFrom(lines, opts, [])
  }

  /** clean_file (tools/filter.py:76-112), with the loop over the input lines. */
  method CleanFile(lines: seq<seq<string>>, opts: Options) returns (r: Result<seq<OutLine>, FilterError>)
    ensures r == Clean(lines, opts)
  {
    var out := [];
    for i := 0 to |lines|
      invariant CleanFrom(lines[i..], opts, out) == Clean(lines, opts)
    {
      assert lines[i..][1..] == lines[i + 1..];
      var tokens := lines[i];
      if tokens == [] {
        return Err(IndexError);
      }
      if ParseReal(tokens[0]).None? {
        continue;
      }
      if |tokens| < 2 {
        return Err(IndexError);
      }
      var parsed := ParseReal(tokens[1]);
      if parsed.None? {
        return Err(ValueError);
      }
      var hrf := parsed.value;
      if hrf >= 1000.0 {
        hrf := Round(hrf / 1000.0) as real;
      }
      if !opts.applyLimits || (LOWER_LIMIT <= hrf && hrf <= UPPER_LIMIT) {
        var time := if opts.keepTime then Some(tokens[0]) else None;
        out := out + [OutLine(time, Format(hrf, opts.roundToInt))];
      }
    }
    r := Ok(out);
  }

  // --------------------------------------------------------------- properties

  /** What one line contributes to the output: nothing or one line. */
  function Emitted(tokens: seq<string>, opts: Options): seq<OutLine>
  {
    match CleanLine(tokens, opts)
    case Ok(Some(o)) => [o]
    case _ => []
  }

  /** Each line's contribution, in input order. */
  function Pieces(lines: seq<seq<string>>, opts: Options): seq<seq<OutLine>>
  {
    seq(|lines|, i requires 0 <= i < |lines| => Emitted(lines[i], opts))
  }

  /** Whether no line makes clean_file raise. */
  predicate AllClean(lines: seq<seq<string>>, opts: Options)
  {
    forall i :: 0 <= i < |lines| ==> CleanLine(lines[i], opts).Ok?
  }

  /**
   * clean_file fails exactly when some line raises; otherwise the output is
   * each line's contribution, in input order.
   */
  lemma {:induction false} CleanFromPieces(lines: seq<seq<string>>, opts: Options, out: seq<OutLine>)
    ensures CleanFrom(lines, opts, out).Ok? <==> AllClean(lines, opts)
    ensures AllClean(lines, opts) ==> CleanFrom(lines, opts, out) == Ok(out + Concat(Pieces(lines, opts)))
    decreases |lines|
  {
    if lines == [] {
      assert out + Concat(Pieces(lines, opts)) == out;
    } else {
      var rest := lines[1..];
      var pieces := Pieces(lines, opts);
      assert Pieces(rest, opts) == pieces[1..];
      assert Concat(pieces) == pieces[0] + Concat(pieces[1..]);
      assert AllClean(lines, opts) <==> CleanLine(lines[0], opts).Ok? && AllClean(rest, opts) by {
        if CleanLine(lines[0], opts).Ok? && AllClean(rest, opts) {
          forall i | 0 <= i < |lines|
            ensures CleanLine(lines[i], opts).Ok?
          {
            if i > 0 {
              assert lines[i] == rest[i - 1];
            }
          }
        }
        if AllClean(lines, opts) {
          forall i | 0 <= i < |rest|
            ensures CleanLine(rest[i], opts).Ok?
          {
            assert rest[i] == lines[i + 1];
          }
        }
      }
      match CleanLine(lines[0], opts)
      case Err(_) =>
      case Ok(None) =>
        CleanFromPieces(rest, opts, out);
        assert pieces[0] == [];
        assert Concat(pieces) == Concat(pieces[1..]);
      case Ok(Some(o)) =>
        CleanFromPieces(rest, opts, out + [o]);
        assert out + [o] + Concat(pieces[1..]) == out + Concat(pieces);
    }
  }

  /** The whole-file form: clean_file writes each line's contribution in input order, or raises. */
  lemma CleanIsPieces(lines: seq<seq<string>>, opts: Options)
    ensures Clean(lines, opts).Ok? <==> AllClean(lines, opts)
    ensures AllClean(lines, opts) ==> Clean(lines, opts) == Ok(Concat(Pieces(lines, opts)))
  {
    CleanFromPieces(lines, opts, []);
    assert [] + Concat(Pieces(lines, opts)) == Concat(Pieces(lines, opts));
  }

  /** Whether the line's first token is a number, so the line is data rather than a header. */
  predicate Numeric(tokens: seq<string>)
  {
    tokens != [] && ParseReal(tokens[0]).Some?
  }

  /** How many lines contribute an output line. */
  function CountEmitted(lines: seq<seq<string>>, opts: Options): nat
    decreases |lines|
  {
    if lines == [] then 0 else |Emitted(lines[0], opts)| + CountEmitted(lines[1..], opts)
  }

  /** How many lines are data lines. */
  function CountNumeric(lines: seq<seq<string>>): nat
    decreases |lines|
  {
    if lines == [] then 0 else (if Numeric(lines[0]) then 1 else 0) + CountNumeric(lines[1..])
  }

  /** How many lines are data lines whose rescaled value falls outside the limits. */
  function CountOutside(lines: seq<seq<string>>): nat
    decreases |lines|
  {
    if lines == [] then 0
    else
      var outside := Numeric(lines[0]) && |lines[0]| >= 2 && ParseReal(lines[0][1]).Some? && !InLimits(Rescaled(ParseReal(lines[0][1]).value));
      (if outside then 1 else 0) + CountOutside(lines[1..])
  }

  /** The output of a clean run has one line per contributing input line. */
  lemma {:induction false} ConcatPiecesLength(lines: seq<seq<string>>, opts: Options)
    ensures |Concat(Pieces(lines, opts))| == CountEmitted(lines, opts) <= |lines|
    decreases |lines|
  {
    if lines != [] {
      var pieces := Pieces(lines, opts);
      assert Pieces(lines[1..], opts) == pieces[1..];
      ConcatPiecesLength(lines[1..], opts);
    }
  }

  /**
   * Without limits, every data line of a clean run yields exactly one line;
   * with them, every data line but those outside the limits does. Headers
   * never yield one.
   */
  lemma {:induction false} CountEmittedIs(lines: seq<seq<string>>, opts: Options)
    requires AllClean(lines, opts)
    ensures !opts.applyLimits ==> CountEmitted(lines, opts) == CountNumeric(lines)
    ensures opts.applyLimits ==> CountEmitted(lines, opts) == CountNumeric(lines) - CountOutside(lines)
    ensures CountOutside(lines) <= CountNumeric(lines)
    decreases |lines|
  {
    if lines != [] {
      var rest := lines[1..];
      assert AllClean(rest, opts) by {
        forall i | 0 <= i < |rest|
          ensures CleanLine(rest[i], opts).Ok?
        {
          assert rest[i] == lines[i + 1];
        }
      }
      assert CleanLine(lines[0], opts).Ok?;
      CountEmittedIs(rest, opts);
    }
  }

  /**
   * Output keeps input order and never has more lines than the input; with
   * the limits, a record whose data lines are all clean loses exactly its
   * out-of-limit lines and its headers.
   */
  lemma CleanLength(lines: seq<seq<string>>, opts: Options)
    requires Clean(lines, opts).Ok?
    ensures |Clean(lines, opts).value| <= |lines|
    ensures !opts.applyLimits ==> |Clean(lines, opts).value| == CountNumeric(lines)
    ensures opts.applyLimits ==> |Clean(lines, opts).value| == CountNumeric(lines) - CountOutside(lines)
  {
    CleanIsPieces(lines, opts);
    ConcatPiecesLength(lines, opts);
    CountEmittedIs(lines, opts);
  }

  /**
   * The planted record of the filter test: when every line is data and
   * exactly two of them are outside the limits, the filtered record is two
   * lines shorter than the original.
   */
  lemma PlantedLosesTwo(lines: seq<seq<string>>, opts: Options)
    requires opts.applyLimits && AllClean(lines, opts)
    requires CountNumeric(lines) == |lines| && CountOutside(lines) == 2
    ensures Clean(lines, opts).Ok? && |Clean(lines, opts).value| == |lines| - 2
  {
    CleanIsPieces(lines, opts);
    CleanLength(lines, opts);
  }

  /** Every line of the output: its time token is there iff it is kept, and with the limits its value is within them. */
  lemma EmittedShape(tokens: seq<string>, opts: Options)
    ensures forall o :: o in Emitted(tokens, opts) ==>
      (o.time.Some? <==> opts.keepTime)
      && (o.time.Some? ==> o.time.value == tokens[0])
      && (opts.applyLimits ==> LOWER_LIMIT <= CellValue(o.value) <= UPPER_LIMIT)
  {
    if CleanLine(tokens, opts).Ok? && CleanLine(tokens, opts).value.Some? {
      var v := ParseReal(tokens[1]).value;
      var hrf := Rescaled(v);
      if opts.applyLimits && opts.roundToInt {
        var n := Trunc(hrf);
        assert 50 <= n <= 250 by {
          TruncMonotone(50.0, hrf);
          TruncMonotone(hrf, 250.0);
          TruncOfInteger(50);
          TruncOfInteger(250);
        }
      }
    }
  }

  /** A header, one value above the limits and one below: only the two in-limit values remain, in order. */
  lemma PlantedExample()
    ensures Clean([["time", "hrf"], ["0", "120"], ["1", "300"], ["2", "140"], ["3", "30"]], Options(false, true, false))
      == Ok([OutLine(None, Fixed(120.0)), OutLine(None, Fixed(140.0))])
  {
    var opts := Options(false, true, false);
    assert ParseReal("time") == None;
    assert ParseReal("0") == Some(0.0);
    assert ParseReal("1") == Some(1.0);
    assert ParseReal("2") == Some(2.0);
    assert ParseReal("3") == Some(3.0);
    assert ParseReal("120") == Some(120.0);
    assert ParseReal("300") == Some(300.0);
    assert ParseReal("140") == Some(140.0);
    assert ParseReal("30") == Some(30.0);
    var lines := [["time", "hrf"], ["0", "120"], ["1", "300"], ["2", "140"], ["3", "30"]];
    var a, b := OutLine(None, Fixed(120.0)), OutLine(None, Fixed(140.0));
    assert CleanFrom(lines[4..], opts, [a, b]) == Ok([a, b]);
    assert CleanLine(lines[3], opts) == Ok(Some(b));
    assert lines[3..][1..] == lines[4..] && [a] + [b] == [a, b];
    assert CleanFrom(lines[3..], opts, [a]) == Ok([a, b]);
    assert CleanFrom(lines[2..], opts, [a]) == Ok([a, b]);
    assert CleanLine(lines[1], opts) == Ok(Some(a));
    assert lines[1..][1..] == lines[2..] && [] + [a] == [a];
    assert CleanFrom(lines[1..], opts, []) == Ok([a, b]);
  }

  /** `int()` on non-negative reals is monotone. */
  lemma TruncMonotone(x: real, y: real)
    requires 0.0 <= x <= y
    ensures Trunc(x) <= Trunc(y)
  {
  }

  /**
   * Every line of a clean run's output has its time token iff it is kept
   * (two columns, else one), and with the limits its value is within
   * [50, 250].
   */
  lemma CleanShape(lines: seq<seq<string>>, opts: Options)
    requires Clean(lines, opts).Ok?
    ensures forall o :: o in Clean(lines, opts).value ==>
      (o.time.Some? <==> opts.keepTime)
      && (opts.applyLimits ==> LOWER_LIMIT <= CellValue(o.value) <= UPPER_LIMIT)
  {
    CleanIsPieces(lines, opts);
    var pieces := Pieces(lines, opts);
    forall o: OutLine | o in Concat(pieces)
      ensures (o.time.Some? <==> opts.keepTime)
      && (opts.applyLimits ==> LOWER_LIMIT <= CellValue(o.value) <= UPPER_LIMIT)
    {
      var i := ConcatMember(pieces, o);
      EmittedShape(lines[i], opts);
    }
  }

  /** An element of a concatenation comes from one of the pieces. */
  lemma {:induction false} ConcatMember<T>(lists: seq<seq<T>>, x: T) returns (i: nat)
    requires x in Concat(lists)
    ensures i < |lists| && x in lists[i]
    decreases |lists|
  {
    if x in lists[0] {
      i := 0;
    } else {
      var j := ConcatMember(lists[1..], x);
      i := j + 1;
    }
  }

  /**
   * The rescaling: a value below 1000 is kept; from 1000 on, the value is
   * the nearest whole number of thousands.
   */
  lemma RescaledMeaning(hrf: real)
    ensures hrf < 1000.0 ==> Rescaled(hrf) == hrf
    ensures hrf >= 1000.0 ==> Abs(Rescaled(hrf) - hrf / 1000.0) <= 0.5 && Rescaled(hrf) >= 1.0
  {
  }

  // ---------------------------------------------------------------- ds_filter

  /** What ds_filter is given: a directory with what it lists, or one file. */
  datatype Input = Directory(path: string, names: seq<string>) | File(path: string)

  /** A file's lines, as token lists. */
  type Reader = string -> seq<seq<string>>

  /** The files written for the remaining `filelist`, after `written`; the first failing file ends the run. */
  function FilterFrom(dir: string, filelist: seq<string>, dest: string, opts: Options, read: Reader,
                      written: map<string, seq<OutLine>>): Result<map<string, seq<OutLine>>, FilterError>
    decreases |filelist|
  {
    if filelist == [] then Ok(written)
    else
      var name := Strip(filelist[0]);
      match Clean(read(PathJoin(dir, name)), opts)
      case Err(e) => Err(e)
      case Ok(out) => FilterFrom(dir, filelist[1..], dest, opts, read, written[PathJoin(dest, name) := out])
  }

  /** ds_filter (tools/filter.py:49-71): the written files, keyed by destination path. */
  function DsFilter(input: Input, dest: string, opts: Options, read: Reader): Result<map<string, seq<OutLine>>, FilterError>
  {
    match input
    case Directory(dir, names) => FilterFrom(dir, Visible(names), dest, opts, read, map[])
    case File(path) =>
      match Clean(read(path), opts)
      case Err(e) => Err(e)
      case Ok(out) => Ok(map[PathJoin(dest, Strip(Basename(path))) := out])
  }

  /** ds_filter with the loop over the listed names. */
  method RunFilter(input: Input, dest: string, opts: Options, read: Reader) returns (r: Result<map<string, seq<OutLine>>, FilterError>)
    ensures r == DsFilter(input, dest, opts, read)
  {
    match input {
      case Directory(dir, names) =>
        var filelist := ListdirNoHidden(names);
        var written := map[];
        for k := 0 to |filelist|
          invariant FilterFrom(dir, filelist[k..], dest, opts, read, written) == FilterFrom(dir, filelist, dest, opts, read, map[])
        {
          assert filelist[k..][1..] == filelist[k + 1..];
          var name := Strip(filelist[k]);
          var out := CleanFile(read(PathJoin(dir, name)), opts);
          if out.Err? {
            return Err(out.error);
          }
          written := written[PathJoin(dest, name) := out.value];
        }
        r := Ok(written);
      case File(path) =>
        var out := CleanFile(read(path), opts);
        if out.Err? {
          return Err(out.error);
        }
        r := Ok(map[PathJoin(dest, Strip(Basename(path))) := out.value]);
    }
  }

  /** Whether `key` is the destination of listed name `k`, and that name's file cleans to `out`. */
  predicate WritesAt(dir: string, filelist: seq<string>, dest: string, opts: Options, read: Reader, k: int, key: string, out: seq<OutLine>)
  {
    0 <= k < |filelist| && key == PathJoin(dest, Strip(filelist[k]))
    && Clean(read(PathJoin(dir, Strip(filelist[k]))), opts) == Ok(out)
  }

  /** Whether `key` is the destination of some listed name. */
  predicate Destination(filelist: seq<string>, dest: string, key: string)
  {
    exists k :: 0 <= k < |filelist| && key == PathJoin(dest, Strip(filelist[k]))
  }

  /** Whether every listed file cleans. */
  predicate AllFilesClean(dir: string, filelist: seq<string>, opts: Options, read: Reader)
  {
    forall k :: 0 <= k < |filelist| ==> Clean(read(PathJoin(dir, Strip(filelist[k]))), opts).Ok?
  }

  /** A directory run succeeds iff every listed file cleans. */
  lemma {:induction false} FilterFromOk(dir: string, filelist: seq<string>, dest: string, opts: Options, read: Reader,
                                        written: map<string, seq<OutLine>>)
    ensures FilterFrom(dir, filelist, dest, opts, read, written).Ok? <==> AllFilesClean(dir, filelist, opts, read)
    decreases |filelist|
  {
    if filelist != [] {
      var rest := filelist[1..];
      var name := Strip(filelist[0]);
      assert AllFilesClean(dir, filelist, opts, read) <==> Clean(read(PathJoin(dir, name)), opts).Ok? && AllFilesClean(dir, rest, opts, read) by {
        if AllFilesClean(dir, filelist, opts, read) {
          forall k | 0 <= k < |rest|
            ensures Clean(read(PathJoin(dir, Strip(rest[k]))), opts).Ok?
          {
            assert rest[k] == filelist[k + 1];
          }
        }
        if Clean(read(PathJoin(dir, name)), opts).Ok? && AllFilesClean(dir, rest, opts, read) {
          forall k | 0 <= k < |filelist|
            ensures Clean(read(PathJoin(dir, Strip(filelist[k]))), opts).Ok?
          {
            if k > 0 {
              assert filelist[k] == rest[k - 1];
            }
          }
        }
      }
      match Clean(read(PathJoin(dir, name)), opts)
      case Err(_) =>
      case Ok(out) =>
        FilterFromOk(dir, rest, dest, opts, read, written[PathJoin(dest, name) := out]);
    }
  }

  /** In a successful run, a path is written iff it was already or it is the destination of a listed name. */
  lemma {:induction false} FilterFromKeys(dir: string, filelist: seq<string>, dest: string, opts: Options, read: Reader,
                                          written: map<string, seq<OutLine>>, key: string)
    requires FilterFrom(dir, filelist, dest, opts, read, written).Ok?
    ensures key in FilterFrom(dir, filelist, dest, opts, read, written).value <==> key in written || Destination(filelist, dest, key)
    decreases |filelist|
  {
    if filelist != [] {
      var rest := filelist[1..];
      var name := Strip(filelist[0]);
      var out := Clean(read(PathJoin(dir, name)), opts).value;
      FilterFromKeys(dir, rest, dest, opts, read, written[PathJoin(dest, name) := out], key);
      assert Destination(filelist, dest, key) <==> key == PathJoin(dest, name) || Destination(rest, dest, key) by {
        if Destination(rest, dest, key) {
          var k :| 0 <= k < |rest| && key == PathJoin(dest, Strip(rest[k]));
          assert key == PathJoin(dest, Strip(filelist[k + 1]));
        }
        if Destination(filelist, dest, key) && key != PathJoin(dest, name) {
          var k :| 0 <= k < |filelist| && key == PathJoin(dest, Strip(filelist[k]));
          assert key == PathJoin(dest, Strip(rest[k - 1]));
        }
      }
    }
  }

  /** In a successful run, what a new path holds is the cleaning of a listed file that has that destination. */
  lemma {:induction false} FilterFromValues(dir: string, filelist: seq<string>, dest: string, opts: Options, read: Reader,
                                            written: map<string, seq<OutLine>>, key: string)
    requires FilterFrom(dir, filelist, dest, opts, read, written).Ok?
    requires key in FilterFrom(dir, filelist, dest, opts, read, written).value
    ensures var r := FilterFrom(dir, filelist, dest, opts, read, written).value;
      (key in written && r[key] == written[key]) || exists k :: WritesAt(dir, filelist, dest, opts, read, k, key, r[key])
    decreases |filelist|
  {
    if filelist != [] {
      var rest := filelist[1..];
      var name := Strip(filelist[0]);
      var out := Clean(read(PathJoin(dir, name)), opts).value;
      var next := written[PathJoin(dest, name) := out];
      var r := FilterFrom(dir, rest, dest, opts, read, next).value;
      FilterFromValues(dir, rest, dest, opts, read, next, key);
      if exists k :: WritesAt(dir, rest, dest, opts, read, k, key, r[key]) {
        var k :| WritesAt(dir, rest, dest, opts, read, k, key, r[key]);
        assert rest[k] == filelist[k + 1];
        assert WritesAt(dir, filelist, dest, opts, read, k + 1, key, r[key]);
      } else if key == PathJoin(dest, name) {
        assert WritesAt(dir, filelist, dest, opts, read, 0, key, r[key]);
      }
    }
  }

  /**
   * ds_filter on a directory writes one cleaned file per visible name,
   * under that stripped name in the destination, and nothing else; it fails
   * iff some visible file does not clean.
   */
  lemma DirectoryWrites(dir: string, names: seq<string>, dest: string, opts: Options, read: Reader, key: string)
    ensures DsFilter(Directory(dir, names), dest, opts, read).Ok? <==> AllFilesClean(dir, Visible(names), opts, read)
    ensures var r := DsFilter(Directory(dir, names), dest, opts, read);
      r.Ok? ==> (key in r.value <==> Destination(Visible(names), dest, key))
    ensures var r := DsFilter(Directory(dir, names), dest, opts, read);
      r.Ok? && key in r.value ==> exists k :: WritesAt(dir, Visible(names), dest, opts, read, k, key, r.value[key])
  {
    FilterFromOk(dir, Visible(names), dest, opts, read, map[]);
    if DsFilter(Directory(dir, names), dest, opts, read).Ok? {
      FilterFromKeys(dir, Visible(names), dest, opts, read, map[], key);
      if key in DsFilter(Directory(dir, names), dest, opts, read).value {
        FilterFromValues(dir, Visible(names), dest, opts, read, map[], key);
      }
    }
  }
}
