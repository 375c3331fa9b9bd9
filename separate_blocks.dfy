// tools/separate_blocks.py: the blocks of a partitioned record whose
// compressed size falls below a lower limit or above an upper limit, the
// limits coming from the mean and deviation of the sizes or from their
// quartiles.

module SeparateBlocks {
  import opened Builtins

  // ----------------------------------------------------------------- sorted()

  predicate IsSorted(s: seq<int>)
  {
    forall i, j :: 0 <= i <= j < |s| ==> s[i] <= s[j]
  }

  /** Puts `x` before the first element not below it. */
  function Insert(x: int, s: seq<int>): (r: seq<int>)
    ensures |r| == |s| + 1
  {
    if s == [] || x <= s[0] then [x] + s else [s[0]] + Insert(x, s[1..])
  }

  /** Python `sorted` on a list of integers, as insertion sort. */
  function Sort(s: seq<int>): (r: seq<int>)
    ensures |r| == |s|
  {
    if s == [] then [] else Insert(s[0], Sort(s[1..]))
  }

  /** Inserting keeps every element of the result at least a bound the others have. */
  lemma {:induction false} InsertBounded(x: int, s: seq<int>, b: int)
    requires b <= x && forall k :: 0 <= k < |s| ==> b <= s[k]
    ensures forall k :: 0 <= k < |Insert(x, s)| ==> b <= Insert(x, s)[k]
    decreases |s|
  {
    if s != [] && x > s[0] {
      InsertBounded(x, s[1..], b);
    }
  }

  lemma {:induction false} InsertSorted(x: int, s: seq<int>)
    requires IsSorted(s)
    ensures IsSorted(Insert(x, s))
    decreases |s|
  {
    if s != [] && x > s[0] {
      InsertSorted(x, s[1..]);
      InsertBounded(x, s[1..], s[0]);
    }
  }

  lemma {:induction false} InsertPermutes(x: int, s: seq<int>)
    ensures multiset(Insert(x, s)) == multiset(s) + multiset{x}
    decreases |s|
  {
    if s != [] && x > s[0] {
      InsertPermutes(x, s[1..]);
      assert s == [s[0]] + s[1..];
    }
  }

  /** `sorted` gives an ordered rearrangement of its input. */
  lemma {:induction false} SortSpec(s: seq<int>)
    ensures IsSorted(Sort(s)) && multiset(Sort(s)) == multiset(s) && |Sort(s)| == |s|
    decreases |s|
  {
    if s != [] {
      SortSpec(s[1..]);
      InsertSorted(s[0], Sort(s[1..]));
      InsertPermutes(s[0], Sort(s[1..]));
      assert s == [s[0]] + s[1..];
    }
    assert |multiset(Sort(s))| == |Sort(s)|;
  }

  // ---------------------------------------------------------------- outliers

  /** Python 2 `(a + b) / 2` on integers: floor division. */
  function Midpoint(a: int, b: int): int
  {
    (a + b) / 2
  }

  /** The percentile position `len * q / 100.0 + 0.5`. */
  function Position(n: nat, q: nat): real
  {
    (n * q) as real / 100.0 + 0.5
  }

  /**
   * A percentile of an ordered list (tools/separate_blocks.py:156-173): a
   * fractional position takes the midpoint of the two values around it,
   * a whole one the value at that position.
   */
  function Percentile(ordered: seq<int>, q: nat): int
    requires |ordered| >= 2 && (q == 25 || q == 50 || q == 75)
  {
    PositionBounds(|ordered|, q);
    var p := Position(|ordered|, q);
    var i := p.Floor;
    if i as real != p then Midpoint(ordered[i - 1], ordered[i]) else ordered[i - 1]
  }

  /** For two or more values the positions are in range: a whole position is at most `n`, a fractional one below `n`. */
  lemma PositionBounds(n: nat, q: nat)
    requires n >= 2 && (q == 25 || q == 50 || q == 75)
    ensures var p := Position(n, q); 1 <= p.Floor <= n && (p.Floor as real != p ==> p.Floor < n)
  {
    var p := Position(n, q);
    assert p <= (3 * n) as real / 4.0 + 0.5;
    assert p >= 1.0;
  }

  /** The lower and upper limit `p50 ∓ 1.5 (p75 − p25)`. */
  datatype Limits = Limits(lower: real, upper: real)

  /** outliers (tools/separate_blocks.py:141-180) on at least two sizes. */
  function Outliers(sizes: seq<int>): Limits
    requires |sizes| >= 2
  {
    SortSpec(sizes);
    var ordered := Sort(sizes);
    var p25 := Percentile(ordered, 25);
    var p75 := Percentile(ordered, 75);
    var p50 := Percentile(ordered, 50);
    var ipr := p75 - p25;
    Limits(p50 as real - 1.5 * ipr as real, p50 as real + 1.5 * ipr as real)
  }

  /** A midpoint under integer halving lies between its two values. */
  lemma MidpointBetween(a: int, b: int)
    requires a <= b
    ensures a <= Midpoint(a, b) <= b
  {
  }

  /** A percentile lies between the values on either side of its position. */
  lemma PercentileBetween(ordered: seq<int>, q: nat)
    requires |ordered| >= 2 && (q == 25 || q == 50 || q == 75) && IsSorted(ordered)
    ensures var i := Position(|ordered|, q).Floor;
      ordered[i - 1] <= Percentile(ordered, q) && (i < |ordered| ==> Percentile(ordered, q) <= ordered[i])
  {
    PositionBounds(|ordered|, q);
    var i := Position(|ordered|, q).Floor;
    if i < |ordered| {
      MidpointBetween(ordered[i - 1], ordered[i]);
    }
  }

  /** On an ordered list, a higher percentile is never smaller. */
  lemma PercentileMonotone(ordered: seq<int>, q1: nat, q2: nat)
    requires |ordered| >= 2 && (q1 == 25 || q1 == 50 || q1 == 75) && (q2 == 25 || q2 == 50 || q2 == 75)
    requires q1 < q2 && IsSorted(ordered)
    ensures Percentile(ordered, q1) <= Percentile(ordered, q2)
  {
    var n := |ordered|;
    PositionBounds(n, q1);
    PositionBounds(n, q2);
    var p1, p2 := Position(n, q1), Position(n, q2);
    var i1, i2 := p1.Floor, p2.Floor;
    assert p1 < p2 by {
      assert (n * q1) < (n * q2);
    }
    PercentileBetween(ordered, q1);
    PercentileBetween(ordered, q2);
    if i1 < i2 {
      if i1 < n {
        assert ordered[i1] <= ordered[i2 - 1];
      }
    } else {
      assert i1 == i2;
      if i1 as real == p1 {
        assert i2 as real != p2;
      }
    }
  }

  /**
   * The quartile limits: on at least two sizes they are symmetric about
   * the median, and the lower never exceeds the upper, because the list
   * is sorted so that `p75 ≥ p25`.
   */
  lemma OutliersOrdered(sizes: seq<int>)
    requires |sizes| >= 2
    ensures var l := Outliers(sizes); var p50 := Percentile(Sort(sizes), 50) as real;
      l.lower <= p50 <= l.upper && l.upper - p50 == p50 - l.lower
  {
    SortSpec(sizes);
    PercentileMonotone(Sort(sizes), 25, 75);
  }

  /** On two or more sizes the quartiles lie within the smallest and the largest size, in order. */
  lemma QuartilesInRange(sizes: seq<int>)
    requires |sizes| >= 2
    ensures var ordered := Sort(sizes);
      |ordered| == |sizes| && ordered[0] <= Percentile(ordered, 25) <= Percentile(ordered, 50)
      <= Percentile(ordered, 75) <= ordered[|ordered| - 1]
  {
    SortSpec(sizes);
    var ordered := Sort(sizes);
    PercentileMonotone(ordered, 25, 50);
    PercentileMonotone(ordered, 50, 75);
    PercentileBetween(ordered, 25);
    PercentileBetween(ordered, 75);
    PositionBounds(|ordered|, 75);
  }

  // ---------------------------------------------------------------- mean_std

  /** numpy's mean of integer sizes. */
  function MeanOf(sizes: seq<int>): real
    requires sizes != []
  {
    SumInts(sizes) as real / |sizes| as real
  }

  function SumInts(s: seq<int>): int
  {
    if s == [] then 0 else s[0] + SumInts(s[1..])
  }

  /** mean_std (tools/separate_blocks.py:123-138), the deviation given by `std`. */
  function MeanStd(sizes: seq<int>, std: seq<int> -> real): Limits
    requires sizes != []
  {
    var mean := MeanOf(sizes);
    var sd := std(sizes);
    Limits(mean - sd, mean + sd)
  }

  /** The mean ∓ deviation limits are symmetric about the mean, `2·std` apart, and ordered for a non-negative deviation. */
  lemma MeanStdSymmetric(sizes: seq<int>, std: seq<int> -> real)
    requires sizes != []
    ensures var l := MeanStd(sizes, std); var mean := MeanOf(sizes);
      l.upper - mean == mean - l.lower && l.upper - l.lower == 2.0 * std(sizes)
      && (std(sizes) >= 0.0 <==> l.lower <= l.upper)
  {
  }

  // ------------------------------------------------------- apply_metric_file

  /** One block of a record: its file name (`<name>_<number>`) and its compressed size. */
  datatype Block = Block(name: string, compressed: int)

  /** A block's start and end time, in seconds. */
  type Span = (real, real)

  /** The exceptions apply_metric_file and apply_metric do not catch. */
  datatype SeparateError = ValueError | IndexError | KeyError | UnboundLimits

  /** Python 2 `round(x, 2)`. */
  function Round2(x: real): real
  {
    Round(x * 100.0) as real / 100.0
  }

  /** The block number: `int()` of the text after the last `_` of the name, `None` where int raises ValueError. */
  function BlockNumber(name: string): Option<int>
  {
    var parts := Split(name, '_');
    PyInt(parts[|parts| - 1])
  }

  /** The rounded times of block `number`, `block_times[number - 1]`, when that index exists. */
  function BlockSpan(times: seq<Span>, number: int): Option<Span>
  {
    if InBounds(|times|, number - 1) then
      var t := At(times, number - 1);
      Some((Round2(t.0), Round2(t.1)))
    else None
  }

  /** The two block tables: below the lower limit and above the upper one. */
  datatype Marked = Marked(below: map<int, Span>, above: map<int, Span>)

  /** The limits the metric gives the sizes; `None` when none are computed (an unknown metric, or no sizes for mean_std). */
  function MetricLimits(metric: string, sizes: seq<int>, std: seq<int> -> real): Result<Option<Limits>, SeparateError>
  {
    if metric == "mean_std" then (if sizes == [] then Ok(None) else Ok(Some(MeanStd(sizes, std))))
    else if metric == "outliers" then (if |sizes| < 2 then Err(IndexError) else Ok(Some(Outliers(sizes))))
    else Ok(None)
  }

  /** The marking loop of apply_metric_file over the remaining blocks, after `marked`. */
  function MarkFrom(blocks: seq<Block>, times: seq<Span>, limits: Option<Limits>, marked: Marked): Result<Marked, SeparateError>
    decreases |blocks|
  {
    if blocks == [] then Ok(marked)
    else
      match BlockNumber(blocks[0].name)
      case None => Err(ValueError)
      case Some(number) =>
        match BlockSpan(times, number)
        case None => Err(IndexError)
        case Some(span) =>
          if limits.None? then Err(UnboundLimits)
          else
            MarkFrom(blocks[1..], times, limits, Step(marked, number, span, blocks[0].compressed as real, limits.value))
  }

  /** The compressed sizes, in block order. */
  function Sizes(blocks: seq<Block>): (r: seq<int>)
    ensures |r| == |blocks| && forall i :: 0 <= i < |blocks| ==> r[i] == blocks[i].compressed
  {
    seq(|blocks|, i requires 0 <= i < |blocks| => blocks[i].compressed)
  }

  /** apply_metric_file (tools/separate_blocks.py:81-120), the blocks in the order the dictionary gives them. */
  function ApplyMetricFile(blocks: seq<Block>, times: seq<Span>, metric: string, std: seq<int> -> real): Result<Marked, SeparateError>
  {
    match MetricLimits(metric, Sizes(blocks), std)
    case Err(e) => Err(e)
    case Ok(limits) => MarkFrom(blocks, times, limits, Marked(map[], map[]))
  }

  /** apply_metric_file with its loop over the blocks. */
  method MarkBlocks(blocks: seq<Block>, times: seq<Span>, metric: string, std: seq<int> -> real) returns (r: Result<Marked, SeparateError>)
    ensures r == ApplyMetricFile(blocks, times, metric, std)
  {
    var sizes := Sizes(blocks);
    var limits := MetricLimits(metric, sizes, std);
    if limits.Err? {
      return Err(limits.error);
    }
    var below := map[];
    var above := map[];
    for i := 0 to |blocks|
      invariant MarkFrom(blocks[i..], times, limits.value, Marked(below, above)) == ApplyMetricFile(blocks, times, metric, std)
    {
      assert blocks[i..][1..] == blocks[i + 1..];
      var number := BlockNumber(blocks[i].name);
      if number.None? {
        return Err(ValueError);
      }
      var span := BlockSpan(times, number.value);
      if span.None? {
        return Err(IndexError);
      }
      if limits.value.None? {
        return Err(UnboundLimits);
      }
      var size := blocks[i].compressed as real;
      if size < limits.value.value.lower {
        below := below[number.value := span.value];
      } else if size > limits.value.value.upper {
        above := above[number.value := span.value];
      }
    }
    r := Ok(Marked(below, above));
  }

  /** Whether block `i` has number `number` and lies below the limits. */
  predicate BelowAt(blocks: seq<Block>, limits: Limits, i: int, number: int)
  {
    0 <= i < |blocks| && BlockNumber(blocks[i].name) == Some(number) && (blocks[i].compressed as real) < limits.lower
  }

  /** Whether block `i` has number `number` and lies above the limits (and not below). */
  predicate AboveAt(blocks: seq<Block>, limits: Limits, i: int, number: int)
  {
    0 <= i < |blocks| && BlockNumber(blocks[i].name) == Some(number)
    && !((blocks[i].compressed as real) < limits.lower) && (blocks[i].compressed as real) > limits.upper
  }

  /** One step of the marking loop on the tables. */
  function Step(marked: Marked, number: int, span: Span, size: real, limits: Limits): Marked
  {
    if size < limits.lower then marked.(below := marked.below[number := span])
    else if size > limits.upper then marked.(above := marked.above[number := span])
    else marked
  }

  /**
   * After the marking loop, a number is marked below iff it was already or
   * some block with that number is below the lower limit; a newly marked
   * number holds `block_times[number - 1]`, rounded.
   */
  lemma {:induction false} MarkFromBelow(blocks: seq<Block>, times: seq<Span>, limits: Limits, marked: Marked, number: int)
    requires MarkFrom(blocks, times, Some(limits), marked).Ok?
    ensures var m := MarkFrom(blocks, times, Some(limits), marked).value;
      (number in m.below <==> number in marked.below || exists i :: BelowAt(blocks, limits, i, number))
      && (number in m.below ==> (number in marked.below && m.below[number] == marked.below[number]) || BlockSpan(times, number) == Some(m.below[number]))
    decreases |blocks|
  {
    if blocks != [] {
      var rest := blocks[1..];
      var n0 := BlockNumber(blocks[0].name).value;
      var span := BlockSpan(times, n0).value;
      var next := Step(marked, n0, span, blocks[0].compressed as real, limits);
      assert MarkFrom(blocks, times, Some(limits), marked) == MarkFrom(rest, times, Some(limits), next);
      MarkFromBelow(rest, times, limits, next, number);
      if number in next.below && number !in marked.below {
        assert BelowAt(blocks, limits, 0, number);
      }
      if exists i :: BelowAt(rest, limits, i, number) {
        var i :| BelowAt(rest, limits, i, number);
        assert rest[i] == blocks[i + 1];
        assert BelowAt(blocks, limits, i + 1, number);
      }
      if exists i :: BelowAt(blocks, limits, i, number) {
        var i :| BelowAt(blocks, limits, i, number);
        if i > 0 {
          assert rest[i - 1] == blocks[i];
          assert BelowAt(rest, limits, i - 1, number);
        } else {
          assert number in next.below;
        }
      }
    }
  }

  /**
   * After the marking loop, a number is marked above iff it was already or
   * some block with that number is above the upper limit and not below the
   * lower; a newly marked number holds `block_times[number - 1]`, rounded.
   */
  lemma {:induction false} MarkFromAbove(blocks: seq<Block>, times: seq<Span>, limits: Limits, marked: Marked, number: int)
    requires MarkFrom(blocks, times, Some(limits), marked).Ok?
    ensures var m := MarkFrom(blocks, times, Some(limits), marked).value;
      (number in m.above <==> number in marked.above || exists i :: AboveAt(blocks, limits, i, number))
      && (number in m.above ==> (number in marked.above && m.above[number] == marked.above[number]) || BlockSpan(times, number) == Some(m.above[number]))
    decreases |blocks|
  {
    if blocks != [] {
      var rest := blocks[1..];
      var n0 := BlockNumber(blocks[0].name).value;
      var span := BlockSpan(times, n0).value;
      var next := Step(marked, n0, span, blocks[0].compressed as real, limits);
      assert MarkFrom(blocks, times, Some(limits), marked) == MarkFrom(rest, times, Some(limits), next);
      MarkFromAbove(rest, times, limits, next, number);
      if number in next.above && number !in marked.above {
        assert AboveAt(blocks, limits, 0, number);
      }
      if exists i :: AboveAt(rest, limits, i, number) {
        var i :| AboveAt(rest, limits, i, number);
        assert rest[i] == blocks[i + 1];
        assert AboveAt(blocks, limits, i + 1, number);
      }
      if exists i :: AboveAt(blocks, limits, i, number) {
        var i :| AboveAt(blocks, limits, i, number);
        if i > 0 {
          assert rest[i - 1] == blocks[i];
          assert AboveAt(rest, limits, i - 1, number);
        } else {
          assert number in next.above;
        }
      }
    }
  }

  /** Whether no two blocks carry the same number. */
  predicate DistinctNumbers(blocks: seq<Block>)
  {
    forall i, j :: 0 <= i < j < |blocks| && BlockNumber(blocks[i].name).Some? ==> BlockNumber(blocks[i].name) != BlockNumber(blocks[j].name)
  }

  /**
   * apply_metric_file with limits: a block is marked below iff its size is
   * below the lower limit, above iff it is above the upper one and not
   * below, so, when no two blocks share a number, never in both and, when
   * within the limits, in neither; each mark holds the block's rounded times.
   */
  lemma Classification(blocks: seq<Block>, times: seq<Span>, metric: string, std: seq<int> -> real, limits: Limits, i: nat)
    requires MetricLimits(metric, Sizes(blocks), std) == Ok(Some(limits))
    requires ApplyMetricFile(blocks, times, metric, std).Ok? && i < |blocks| && DistinctNumbers(blocks)
    ensures var m := ApplyMetricFile(blocks, times, metric, std).value; var number := BlockNumber(blocks[i].name);
      var size := blocks[i].compressed as real;
      number.Some?
      && (number.value in m.below <==> size < limits.lower)
      && (number.value in m.above <==> !(size < limits.lower) && size > limits.upper)
      && !(number.value in m.below && number.value in m.above)
      && (number.value in m.below ==> Some(m.below[number.value]) == BlockSpan(times, number.value))
      && (number.value in m.above ==> Some(m.above[number.value]) == BlockSpan(times, number.value))
  {
    var empty := Marked(map[], map[]);
    MarkFromNumbers(blocks, times, limits, empty, i);
    var number := BlockNumber(blocks[i].name).value;
    MarkFromBelow(blocks, times, limits, empty, number);
    MarkFromAbove(blocks, times, limits, empty, number);
    if exists j :: BelowAt(blocks, limits, j, number) {
      var j :| BelowAt(blocks, limits, j, number);
      assert j == i;
    }
    if exists j :: AboveAt(blocks, limits, j, number) {
      var j :| AboveAt(blocks, limits, j, number);
      assert j == i;
    }
    if (blocks[i].compressed as real) < limits.lower {
      assert BelowAt(blocks, limits, i, number);
    } else if (blocks[i].compressed as real) > limits.upper {
      assert AboveAt(blocks, limits, i, number);
    }
  }

  /** In a successful marking run every block has a number. */
  lemma {:induction false} MarkFromNumbers(blocks: seq<Block>, times: seq<Span>, limits: Limits, marked: Marked, i: nat)
    requires MarkFrom(blocks, times, Some(limits), marked).Ok? && i < |blocks|
    ensures BlockNumber(blocks[i].name).Some?
    decreases |blocks|
  {
    if i > 0 {
      var n0 := BlockNumber(blocks[0].name).value;
      var span := BlockSpan(times, n0).value;
      var next := Step(marked, n0, span, blocks[0].compressed as real, limits);
      MarkFromNumbers(blocks[1..], times, limits, next, i - 1);
      assert blocks[1..][i - 1] == blocks[i];
    }
  }

  // ------------------------------------------------------------- apply_metric

  /** The marks of every file, below and above, keyed by file name. */
  datatype Tables = Tables(below: map<string, map<int, Span>>, above: map<string, map<int, Span>>)

  /** The loop of apply_metric over the remaining files, after `tables`. */
  function ApplyFrom(files: seq<(string, seq<Block>)>, times: map<string, seq<Span>>, metric: string, std: seq<int> -> real,
                     tables: Tables): Result<Tables, SeparateError>
    decreases |files|
  {
    if files == [] then Ok(tables)
    else
      var name := files[0].0;
      if name !in times then Err(KeyError)
      else
        match ApplyMetricFile(files[0].1, times[name], metric, std)
        case Err(e) => Err(e)
        case Ok(m) => ApplyFrom(files[1..], times, metric, std, Tables(tables.below[name := m.below], tables.above[name := m.above]))
  }

  /**
   * apply_metric (tools/separate_blocks.py:49-76). The files come in the
   * order the dictionary gives them, and `firstTimes` is the first block
   * time list that dictionary gives: with exactly one file, that list is
   * used whatever its key.
   */
  function ApplyMetric(files: seq<(string, seq<Block>)>, times: map<string, seq<Span>>, firstTimes: Option<seq<Span>>,
                       metric: string, std: seq<int> -> real): Result<Tables, SeparateError>
  {
    if |files| == 1 then
      if firstTimes.None? then Err(IndexError)
      else
        match ApplyMetricFile(files[0].1, firstTimes.value, metric, std)
        case Err(e) => Err(e)
        case Ok(m) => Ok(Tables(map[files[0].0 := m.below], map[files[0].0 := m.above]))
    else ApplyFrom(files, times, metric, std, Tables(map[], map[]))
  }

  /** apply_metric with its loop over the files. */
  method RunApplyMetric(files: seq<(string, seq<Block>)>, times: map<string, seq<Span>>, firstTimes: Option<seq<Span>>,
                        metric: string, std: seq<int> -> real) returns (r: Result<Tables, SeparateError>)
    ensures r == ApplyMetric(files, times, firstTimes, metric, std)
  {
    if |files| == 1 {
      if firstTimes.None? {
        return Err(IndexError);
      }
      var m := MarkBlocks(files[0].1, firstTimes.value, metric, std);
      if m.Err? {
        return Err(m.error);
      }
      return Ok(Tables(map[files[0].0 := m.value.below], map[files[0].0 := m.value.above]));
    }
    var below := map[];
    var above := map[];
    for i := 0 to |files|
      invariant ApplyFrom(files[i..], times, metric, std, Tables(below, above)) == ApplyMetric(files, times, firstTimes, metric, std)
    {
      assert files[i..][1..] == files[i + 1..];
      var name := files[i].0;
      if name !in times {
        return Err(KeyError);
      }
      var m := MarkBlocks(files[i].1, times[name], metric, std);
      if m.Err? {
        return Err(m.error);
      }
      below := below[name := m.value.below];
      above := above[name := m.value.above];
    }
    r := Ok(Tables(below, above));
  }

  /** Whether `name` is the name of file `i`. */
  predicate NamedAt(files: seq<(string, seq<Block>)>, i: int, name: string)
  {
    0 <= i < |files| && files[i].0 == name
  }

  /** In a successful loop, both tables gain exactly the file names, each with that file's marks. */
  lemma {:induction false} ApplyFromKeys(files: seq<(string, seq<Block>)>, times: map<string, seq<Span>>, metric: string,
                                         std: seq<int> -> real, tables: Tables, name: string)
    requires ApplyFrom(files, times, metric, std, tables).Ok?
    ensures var t := ApplyFrom(files, times, metric, std, tables).value;
      (name in t.below <==> name in tables.below || exists i :: NamedAt(files, i, name))
      && (name in t.above <==> name in tables.above || exists i :: NamedAt(files, i, name))
    decreases |files|
  {
    if files != [] {
      var rest := files[1..];
      var m := ApplyMetricFile(files[0].1, times[files[0].0], metric, std).value;
      var next := Tables(tables.below[files[0].0 := m.below], tables.above[files[0].0 := m.above]);
      assert ApplyFrom(files, times, metric, std, tables) == ApplyFrom(rest, times, metric, std, next);
      ApplyFromKeys(rest, times, metric, std, next, name);
      if name == files[0].0 {
        assert NamedAt(files, 0, name);
      }
      if exists i :: NamedAt(rest, i, name) {
        var i :| NamedAt(rest, i, name);
        assert NamedAt(files, i + 1, name);
      }
      if exists i :: NamedAt(files, i, name) {
        var i :| NamedAt(files, i, name);
        if i > 0 {
          assert NamedAt(rest, i - 1, name);
        } else {
          assert name in next.below && name in next.above;
        }
      }
    }
  }

  /** apply_metric returns two tables keyed by exactly the input file names. */
  lemma ApplyMetricKeys(files: seq<(string, seq<Block>)>, times: map<string, seq<Span>>, firstTimes: Option<seq<Span>>,
                        metric: string, std: seq<int> -> real, name: string)
    requires ApplyMetric(files, times, firstTimes, metric, std).Ok?
    ensures var t := ApplyMetric(files, times, firstTimes, metric, std).value;
      (name in t.below <==> exists i :: NamedAt(files, i, name))
      && (name in t.above <==> exists i :: NamedAt(files, i, name))
  {
    if |files| == 1 {
      if name == files[0].0 {
        assert NamedAt(files, 0, name);
      }
    } else {
      ApplyFromKeys(files, times, metric, std, Tables(map[], map[]), name);
    }
  }
}
