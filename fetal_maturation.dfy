// tools/fetalMaturationAnalysis.py: the grouping of a longitudinal data set
// by gestational week. Weeks are cut into ranges, either the four fixed
// ones or a requested number of equal ranges; each group is labelled by its
// first and last week, and the per-group metric rows are numbered in list
// order. The data frames and their confidence-interval metrics enter as
// parameters.

module FetalMaturation {
  import opened Builtins
  import opened UtilityFunctions

  /** The Python exceptions of the grouping code. */
  datatype FetalError = ValueError | ZeroDivisionError | IndexError

  // ------------------------------------------------------------------ ranges

  /** Python `range(start, stop, step)` inside dynamic_groups: a zero step raises ValueError. */
  function PyRange(start: int, stop: int, step: int): (r: Result<seq<int>, FetalError>)
    ensures r.Err? <==> step == 0
    ensures r.Err? ==> r.error == ValueError
    ensures step > 0 ==> r == Ok(Range(start, stop, step))
    ensures step < 0 && start <= stop ==> r == Ok([])
  {
    match StepRange(start, stop, step)
    case None => Err(ValueError)
    case Some(values) => Ok(values)
  }

  /** `[range(i, i + width) for i in starts]`. */
  function Blocks(starts: seq<int>, width: int): (r: seq<seq<int>>)
    ensures |r| == |starts|
    ensures forall j :: 0 <= j < |r| ==> r[j] == Interval(starts[j], starts[j] + width)
  {
    seq(|starts|, j requires 0 <= j < |starts| => Interval(starts[j], starts[j] + width))
  }

  // ---------------------------------------------------------- create_groups

  /** The four week ranges of create_groups. */
  const WeekGroups: seq<seq<int>> := [Interval(24, 29), Interval(29, 33), Interval(33, 37), Interval(37, 41)]

  /**
   * create_groups (tools/fetalMaturationAnalysis.py:62-68): four ranges of
   * weeks, 24-28, 29-32, 33-36 and 37-40, that abut and together are the
   * weeks 24 to 40, each once.
   */
  method CreateGroups() returns (wg: seq<seq<int>>)
    ensures wg == WeekGroups
    ensures |wg| == 4 && |wg[0]| == 5 && |wg[1]| == 4 && |wg[2]| == 4 && |wg[3]| == 4
    ensures Concat(wg) == Interval(24, 41)
  {
    wg := [];
    wg := wg + [Interval(24, 29)];
    wg := wg + [Interval(29, 33)];
    wg := wg + [Interval(33, 37)];
    wg := wg + [Interval(37, 41)];
    WeekGroupsCover();
  }

  /** The fixed week groups concatenate to the weeks 24 to 40. */
  lemma WeekGroupsCover()
    ensures Concat(WeekGroups) == Interval(24, 41)
  {
    var g := WeekGroups;
    IntervalSplit(24, 29, 41);
    IntervalSplit(29, 33, 41);
    IntervalSplit(33, 37, 41);
    assert g[1..][1..][1..][1..] == [];
    assert Concat(g[1..][1..][1..]) == g[3];
    assert Concat(g[1..][1..]) == g[2] + g[3];
    assert Concat(g[1..]) == g[1] + (g[2] + g[3]);
  }

  /** Two abutting ranges make one. */
  lemma IntervalSplit(a: int, b: int, c: int)
    requires a <= b <= c
    ensures Interval(a, b) + Interval(b, c) == Interval(a, c)
  {
    var l := Interval(a, b) + Interval(b, c);
    assert |l| == |Interval(a, c)|;
    forall k | 0 <= k < |l|
      ensures l[k] == Interval(a, c)[k]
    {
      IntervalAt(a, c, k);
      if k >= b - a {
        assert l[k] == Interval(b, c)[k - (b - a)];
        IntervalAt(b, c, k - (b - a));
      } else {
        IntervalAt(a, b, k);
      }
    }
  }

  // --------------------------------------------------------- dynamic_groups

  /** Python `min` of a non-empty list. */
  function MinOf(s: seq<int>): (m: int)
    requires |s| > 0
    ensures m in s && forall k :: 0 <= k < |s| ==> m <= s[k]
  {
    if |s| == 1 then s[0]
    else
      var rest := MinOf(s[1..]);
      assert forall k :: 1 <= k < |s| ==> s[k] == s[1..][k - 1];
      if s[0] <= rest then s[0] else rest
  }

  /** Python `max` of a non-empty list. */
  function MaxOf(s: seq<int>): (m: int)
    requires |s| > 0
    ensures m in s && forall k :: 0 <= k < |s| ==> s[k] <= m
  {
    if |s| == 1 then s[0]
    else
      var rest := MaxOf(s[1..]);
      assert forall k :: 1 <= k < |s| ==> s[k] == s[1..][k - 1];
      if s[0] >= rest then s[0] else rest
  }

  /**
   * dynamic_groups (tools/fetalMaturationAnalysis.py:79-107) as written. An
   * empty column makes `min` raise ValueError and no groups raise
   * ZeroDivisionError; otherwise the groups depend only on the smallest and
   * largest value of the column.
   */
  function DynamicGroupsAsWritten(col: seq<int>, n: int): (r: Result<seq<seq<int>>, FetalError>)
  {
    if |col| == 0 then Err(ValueError)
    else if n == 0 then Err(ZeroDivisionError)
    else GroupsOf(MinOf(col), MaxOf(col), n)
  }

  /**
   * The groups dynamic_groups makes for values from `lo` to `hi`, with
   * `k = (hi - lo + 1) / n` values per group. A whole number `k` starts a
   * group of `k` at every `k`-th value from `lo` below `hi`. Otherwise the
   * first group has `ceil(k)` values and the next ones `floor(k)`, starting
   * right after it; a `floor(k)` of zero is a zero step for `range` and
   * raises ValueError.
   */
  function GroupsOf(lo: int, hi: int, n: int): (r: Result<seq<seq<int>>, FetalError>)
    requires n != 0
  {
    var k := (hi - lo + 1) as real / n as real;
    if k == k.Floor as real then
      match PyRange(lo, hi, k.Floor)
      case Err(e) => Err(e)
      case Ok(starts) => Ok(Blocks(starts, k.Floor))
    else
      var first := lo + (k.Floor + 1);
      match PyRange(first, hi, k.Floor)
      case Err(e) => Err(e)
      case Ok(starts) => Ok([Interval(lo, first)] + Blocks(starts, k.Floor))
  }

  /** The loops of dynamic_groups: one `range(i, i + width)` appended per start. */
  method AppendBlocks(groups: seq<seq<int>>, starts: seq<int>, width: int) returns (r: seq<seq<int>>)
    ensures r == groups + Blocks(starts, width)
  {
    r := groups;
    for j := 0 to |starts|
      invariant r == groups + Blocks(starts[..j], width)
    {
      r := r + [Interval(starts[j], starts[j] + width)];
      assert Blocks(starts[..j + 1], width) == Blocks(starts[..j], width) + [Interval(starts[j], starts[j] + width)];
    }
    assert starts[..|starts|] == starts;
  }

  /** dynamic_groups (tools/fetalMaturationAnalysis.py:79-107), appending the groups in its loops. */
  method DynamicGroups(col: seq<int>, n: int) returns (r: Result<seq<seq<int>>, FetalError>)
    ensures r == DynamicGroupsAsWritten(col, n)
  {
    if |col| == 0 {
      return Err(ValueError);
    }
    if n == 0 {
      return Err(ZeroDivisionError);
    }
    r := BuildGroups(MinOf(col), MaxOf(col), n);
  }

  /** The body of dynamic_groups once the smallest and largest values are known. */
  method BuildGroups(lo: int, hi: int, n: int) returns (r: Result<seq<seq<int>>, FetalError>)
    requires n != 0
    ensures r == GroupsOf(lo, hi, n)
  {
    var k := (hi - lo + 1) as real / n as real;
    var groups: seq<seq<int>> := [];
    if k == k.Floor as real {
      var step := k.Floor;
      var starts := PyRange(lo, hi, step);
      if starts.Err? {
        return Err(starts.error);
      }
      groups := AppendBlocks(groups, starts.value, step);
      assert starts == Ok(starts.value);
      assert groups == Blocks(starts.value, step);
    } else {
      var first := lo + (k.Floor + 1);
      groups := groups + [Interval(lo, first)];
      var step := k.Floor;
      var starts := PyRange(first, hi, step);
      if starts.Err? {
        return Err(starts.error);
      }
      groups := AppendBlocks(groups, starts.value, step);
      assert starts == Ok(starts.value);
      assert groups == [Interval(lo, first)] + Blocks(starts.value, step);
    }
    r := Ok(groups);
  }

  /** Real division undoes a product. */
  lemma DivExact(a: real, b: real, c: real)
    requires b != 0.0 && a == b * c
    ensures a / b == c
  {
  }

  /** A quotient by a positive number, multiplied back, gives the dividend. */
  lemma DivTimes(a: real, b: real)
    requires b > 0.0
    ensures a / b * b == a
    ensures a >= b ==> a / b >= 1.0
    ensures 0.0 < a < b ==> 0.0 < a / b < 1.0
  {
  }

  /** The number of values per group is the whole number `e` when `n` groups of `e` make up the values. */
  lemma PerGroupWhole(size: int, n: int, e: int)
    requires n != 0 && size == n * e
    ensures size as real / n as real == e as real
  {
    assert size as real == n as real * e as real;
    DivExact(size as real, n as real, e as real);
  }


  /** `a <= b` scales by a positive factor. */
  lemma MulMonotone(a: int, b: int, k: int)
    requires a <= b && k > 0
    ensures a * k <= b * k
  {
    assert b * k - a * k == (b - a) * k;
  }

  /** One more factor adds one more `f`. */
  lemma MulSucc(a: int, b: int, f: int)
    requires b == a + 1
    ensures b * f == a * f + f
  {
  }

  /** A smaller product by the same positive factor has the smaller factor. */
  lemma MulCancelLess(a: int, b: int, k: int)
    requires k > 0 && a * k < b * k
    ensures a < b
  {
    assert (b - a) * k == b * k - a * k;
  }

  /** The starts `lo, lo + k, …` below `lo + n * k - 1` are `n` in number when `k >= 2`. */
  lemma StartsCount(lo: int, n: nat, k: int)
    requires k >= 2 && n >= 1
    ensures |Range(lo, lo + n * k - 1, k)| == n
  {
    var hi := lo + n * k - 1;
    var starts := Range(lo, hi, k);
    var m := |starts|;
    MulMonotone(1, n, k);
    assert m > 0;
    RangeAt(lo, hi, k, m - 1);
    assert (m - 1) * k < n * k;
    MulCancelLess(m - 1, n, k);
    assert lo + (m - 1) * k + k >= hi;
    assert (n - 1) * k < m * k by {
      assert (m - 1) * k + k == m * k;
      assert (n - 1) * k == n * k - k;
    }
    MulCancelLess(n - 1, m, k);
  }

  /** The starts `lo, lo + k, …` below `lo + n * k` are `n` in number. */
  lemma StartsCountUpTo(lo: int, n: nat, k: int)
    requires k >= 1 && n >= 1
    ensures |Range(lo, lo + n * k, k)| == n
  {
    var end := lo + n * k;
    var starts := Range(lo, end, k);
    var m := |starts|;
    MulMonotone(1, n, k);
    assert m > 0;
    RangeAt(lo, end, k, m - 1);
    MulCancelLess(m - 1, n, k);
    assert (n - 1) * k < m * k by {
      assert lo + (m - 1) * k + k >= end;
      assert (m - 1) * k + k == m * k;
      assert (n - 1) * k == n * k - k;
    }
    MulCancelLess(n - 1, m, k);
  }

  /** Runs of `k` values at the starts `range(lo, stop, k)` concatenate to one run from `lo`. */
  lemma {:induction false} RangeBlocksCover(lo: int, stop: int, k: int)
    requires k >= 1
    ensures Concat(Blocks(Range(lo, stop, k), k)) == Interval(lo, lo + |Range(lo, stop, k)| * k)
    decreases stop - lo
  {
    if lo < stop {
      var starts := Range(lo, stop, k);
      var rest := Range(lo + k, stop, k);
      RangeBlocksCover(lo + k, stop, k);
      assert starts == [lo] + rest;
      var end := lo + k + |rest| * k;
      assert lo + |starts| * k == end by {
        assert |starts| == |rest| + 1;
        assert (|rest| + 1) * k == |rest| * k + k;
      }
      CoverStep(lo, k, starts, rest, end);
    }
  }

  /** A run from `lo` before runs that cover `lo + k` up to `end` covers `lo` up to `end`. */
  lemma CoverStep(lo: int, k: int, starts: seq<int>, rest: seq<int>, end: int)
    requires k >= 1 && starts == [lo] + rest && lo + k <= end
    requires Concat(Blocks(rest, k)) == Interval(lo + k, end)
    ensures Concat(Blocks(starts, k)) == Interval(lo, end)
  {
    var b := Blocks(starts, k);
    BlocksTail(starts, k);
    assert starts[1..] == rest;
    IntervalSplit(lo, lo + k, end);
    assert b[0] == Interval(lo, lo + k);
  }

  /** Dropping the first start drops the first run. */
  lemma BlocksTail(starts: seq<int>, width: int)
    requires |starts| > 0
    ensures Blocks(starts, width)[1..] == Blocks(starts[1..], width)
  {
    var a, b := Blocks(starts, width)[1..], Blocks(starts[1..], width);
    forall i | 0 <= i < |a|
      ensures a[i] == b[i]
    {
      assert starts[1..][i] == starts[i + 1];
    }
  }

  /** The `j`-th run starts at `lo + j * k`. */
  lemma RangeBlocksAt(lo: int, stop: int, k: int, j: int)
    requires k >= 1 && 0 <= j < |Range(lo, stop, k)|
    ensures Blocks(Range(lo, stop, k), k)[j] == Interval(lo + j * k, lo + j * k + k)
  {
    RangeAt(lo, stop, k, j);
  }

  /**
   * Whenever `n` groups of `k >= 2` values fit the values from `lo` to `hi`
   * exactly, the groups are the `n` consecutive runs of `k` values that
   * together are every value from `lo` to `hi`, each once.
   */
  lemma DynamicGroupsEven(lo: int, hi: int, n: int, k: int)
    requires n >= 1 && k >= 2 && hi - lo + 1 == n * k
    ensures var r := GroupsOf(lo, hi, n);
      r.Ok? && |r.value| == n
      && (forall j :: 0 <= j < n ==> r.value[j] == Interval(lo + j * k, lo + (j + 1) * k))
      && Concat(r.value) == Interval(lo, hi + 1)
  {
    PerGroupWhole(hi - lo + 1, n, k);
    assert (k as real).Floor == k;
    StartsCount(lo, n, k);
    assert GroupsOf(lo, hi, n) == Ok(Blocks(Range(lo, hi, k), k));
    EvenRuns(lo, hi, n, k);
  }

  /** `n` starts `k` apart from `lo` give the runs `range(lo + j * k, lo + (j + 1) * k)`, together the `n * k` values from `lo`. */
  lemma EvenRuns(lo: int, stop: int, n: int, k: int)
    requires k >= 1 && |Range(lo, stop, k)| == n
    ensures var b := Blocks(Range(lo, stop, k), k);
      (forall j :: 0 <= j < n ==> b[j] == Interval(lo + j * k, lo + (j + 1) * k))
      && Concat(b) == Interval(lo, lo + n * k)
  {
    RangeBlocksCover(lo, stop, k);
    forall j | 0 <= j < n
      ensures Blocks(Range(lo, stop, k), k)[j] == Interval(lo + j * k, lo + (j + 1) * k)
    {
      RangeBlocksAt(lo, stop, k, j);
      MulSucc(j, j + 1, k);
    }
  }

  /**
   * As written, values that make one value per group lose the largest:
   * `range(l_min, l_max, 1)` stops before `l_max`, so only `n - 1` groups are
   * made and `hi` is in none of them.
   */
  lemma DynamicGroupsOneEach(lo: int, hi: int, n: int)
    requires n >= 1 && hi - lo + 1 == n
    ensures var r := GroupsOf(lo, hi, n);
      r.Ok? && |r.value| == n - 1 && hi !in Concat(r.value)
  {
    PerGroupWhole(n, n, 1);
    assert (1 as real).Floor == 1;
    assert GroupsOf(lo, hi, n) == Ok(Blocks(Range(lo, hi, 1), 1));
    if n > 1 {
      StartsCountUpTo(lo, n - 1, 1);
    }
    assert |Range(lo, hi, 1)| == n - 1;
    RangeBlocksCover(lo, hi, 1);
    IntervalMembers(lo, hi, hi);
  }

  /** The values of `range(a, b)` are those from `a` up to, not including, `b`. */
  lemma IntervalMembers(a: int, b: int, x: int)
    ensures x in Interval(a, b) <==> a <= x < b
  {
    if a <= x < b {
      IntervalAt(a, b, x - a);
    }
  }

  /** The weeks 1 to 3 in three groups come out as two groups, week 3 in none. */
  lemma DynamicGroupsOneEachExample()
    ensures DynamicGroupsAsWritten([1, 2, 3], 3) == Ok([[1], [2]])
  {
    var col := [1, 2, 3];
    assert MinOf(col) == 1 && MaxOf(col) == 3;
    PerGroupWhole(3, 3, 1);
    assert Range(1, 3, 1) == [1, 2];
    assert Blocks([1, 2], 1) == [Interval(1, 2), Interval(2, 3)];
    assert Interval(1, 2) == [1] && Interval(2, 3) == [2];
  }

  /**
   * dynamic_groups with the evident intent of its remainder: every value
   * from `l_min` to `l_max` lands in exactly one of the `n` groups, and the
   * first `size % n` groups hold one value more than the others. When the
   * values split evenly this is the whole-number branch with its starts
   * running up to and including the maximum, `range(l_min, l_max + 1, k)`.
   * Fewer values than groups, or a negative group count, fail or behave as
   * the original does.
   */
  function GroupsCorrected(lo: int, hi: int, n: int): (r: Result<seq<seq<int>>, FetalError>)
    requires n != 0
  {
    var size := hi - lo + 1;
    if 1 <= n <= size then Ok(Balanced(lo, size, n)) else GroupsOf(lo, hi, n)
  }

  /**
   * Where group `j` of the balanced groups from `lo` starts, when each group
   * holds `q` values and the first `rem` one more.
   */
  function BalancedStart(lo: int, q: nat, rem: nat, j: nat): int
    decreases j
  {
    if j == 0 then lo else BalancedStart(lo, q, rem, j - 1) + q + (if j - 1 < rem then 1 else 0)
  }

  /** The `size` values from `lo` cut into `n` consecutive groups, the first `size % n` of them one value longer. */
  function Balanced(lo: int, size: nat, n: nat): (r: seq<seq<int>>)
    requires n >= 1
    ensures |r| == n
  {
    var q, rem := size / n, size % n;
    seq(n, j requires 0 <= j < n => Interval(BalancedStart(lo, q, rem, j), BalancedStart(lo, q, rem, j + 1)))
  }

  /** Group `j` starts past `j` groups of `q` values and `min(j, rem)` extra ones. */
  lemma {:induction false} BalancedStartAt(lo: int, q: nat, rem: nat, j: nat)
    ensures BalancedStart(lo, q, rem, j) == lo + j * q + (if j < rem then j else rem)
  {
    if j > 0 {
      BalancedStartAt(lo, q, rem, j - 1);
      assert j * q == (j - 1) * q + q;
    }
  }

  /** Runs between consecutive bounds that never decrease are together the values from the first bound to the `j`-th. */
  lemma {:induction false} RunsCover(b: seq<seq<int>>, s: seq<int>, j: nat)
    requires |s| == |b| + 1 && j <= |b|
    requires forall i :: 0 <= i < |b| ==> s[i] <= s[i + 1] && b[i] == Interval(s[i], s[i + 1])
    ensures s[0] <= s[j]
    ensures Concat(b[..j]) == Interval(s[0], s[j])
  {
    if j == 0 {
      assert b[..0] == [];
    } else {
      RunsCover(b, s, j - 1);
      assert b[..j] == b[..j - 1] + [b[j - 1]];
      ConcatSnoc(b[..j - 1], b[j - 1]);
      IntervalSplit(s[0], s[j - 1], s[j]);
    }
  }

  /** The last group ends right after the `size` values from `lo`. */
  lemma BalancedEnd(lo: int, size: nat, n: nat)
    requires n >= 1
    ensures BalancedStart(lo, size / n, size % n, n) == lo + size
  {
    BalancedStartAt(lo, size / n, size % n, n);
    assert size == n * (size / n) + size % n;
  }

  /**
   * Corrected, at most as many groups as values give exactly `n` groups,
   * the first `size % n` of `size / n + 1` values and the rest of
   * `size / n`, each starting right after the one before; together they
   * are every value from `lo` to `hi`, each once.
   */
  lemma DynamicGroupsCorrectedBalanced(lo: int, hi: int, n: int)
    requires 1 <= n <= hi - lo + 1
    ensures var r := GroupsCorrected(lo, hi, n); var size := hi - lo + 1;
      r.Ok? && |r.value| == n
      && (forall j :: 0 <= j < n ==> |r.value[j]| == size / n + (if j < size % n then 1 else 0))
      && Abutting(r.value)
      && Concat(r.value) == Interval(lo, hi + 1)
  {
    var size := hi - lo + 1;
    assert GroupsCorrected(lo, hi, n) == Ok(Balanced(lo, size, n));
    BalancedSizes(lo, size, n);
    BalancedAbutting(lo, size, n);
    BalancedCover(lo, size, n);
  }

  /** Group `j` of the balanced groups holds `size / n` values, one more among the first `size % n`. */
  lemma BalancedSizes(lo: int, size: nat, n: nat)
    requires n >= 1
    ensures forall j :: 0 <= j < n ==> |Balanced(lo, size, n)[j]| == size / n + (if j < size % n then 1 else 0)
  {
    forall j | 0 <= j < n
      ensures |Balanced(lo, size, n)[j]| == size / n + (if j < size % n then 1 else 0)
    {
      assert BalancedStart(lo, size / n, size % n, j + 1) == BalancedStart(lo, size / n, size % n, j) + size / n + (if j < size % n then 1 else 0);
    }
  }

  /** With at least as many values as groups, each balanced group starts right after the one before. */
  lemma BalancedAbutting(lo: int, size: nat, n: nat)
    requires 1 <= n <= size
    ensures Abutting(Balanced(lo, size, n))
  {
    QuotientPositive(size, n);
    var s := BalancedBounds(lo, size, n);
    RunsAbut(Balanced(lo, size, n), s);
  }

  /** The bounds of the balanced groups: group `i` runs from `s[i]` up to `s[i + 1]`. */
  lemma BalancedBounds(lo: int, size: nat, n: nat) returns (s: seq<int>)
    requires n >= 1
    ensures |s| == n + 1 && s[0] == lo && s[n] == lo + size
    ensures forall i :: 0 <= i < n ==>
      s[i + 1] == s[i] + size / n + (if i < size % n then 1 else 0) && Balanced(lo, size, n)[i] == Interval(s[i], s[i + 1])
  {
    var q, rem := size / n, size % n;
    s := seq(n + 1, j requires 0 <= j <= n => BalancedStart(lo, q, rem, j));
    BalancedEnd(lo, size, n);
  }

  /** At least as many values as groups leave at least one value per group. */
  lemma QuotientPositive(size: nat, n: nat)
    requires 1 <= n <= size
    ensures size / n >= 1
  {
    assert size == n * (size / n) + size % n;
  }

  /** Non-empty runs between consecutive bounds each start right after the one before. */
  lemma RunsAbut(b: seq<seq<int>>, s: seq<int>)
    requires |s| == |b| + 1
    requires forall i :: 0 <= i < |b| ==> s[i] < s[i + 1] && b[i] == Interval(s[i], s[i + 1])
    ensures Abutting(b)
  {
    forall i {:trigger b[i]} | 0 <= i < |b| - 1
      ensures |b[i]| > 0 && |b[i + 1]| > 0 && b[i + 1][0] == Last(b[i]) + 1
    {
      RunAbutAt(b, s, i);
    }
  }

  /** Run `i + 1` starts right after the last value of run `i`. */
  lemma RunAbutAt(b: seq<seq<int>>, s: seq<int>, i: nat)
    requires |s| == |b| + 1 && i + 1 < |b|
    requires forall i :: 0 <= i < |b| ==> s[i] < s[i + 1] && b[i] == Interval(s[i], s[i + 1])
    ensures |b[i]| > 0 && |b[i + 1]| > 0 && b[i + 1][0] == Last(b[i]) + 1
  {
    assert b[i] == Interval(s[i], s[i + 1]) && b[i + 1] == Interval(s[i + 1], s[i + 2]);
    IntervalAt(s[i], s[i + 1], s[i + 1] - s[i] - 1);
    IntervalAt(s[i + 1], s[i + 2], 0);
  }

  /** Together the balanced groups are the `size` values from `lo`, each once. */
  lemma BalancedCover(lo: int, size: nat, n: nat)
    requires n >= 1
    ensures Concat(Balanced(lo, size, n)) == Interval(lo, lo + size)
  {
    var b := Balanced(lo, size, n);
    var q, rem := size / n, size % n;
    var s := seq(n + 1, j requires 0 <= j <= n => BalancedStart(lo, q, rem, j));
    forall i | 0 <= i < n
      ensures s[i] <= s[i + 1] && b[i] == Interval(s[i], s[i + 1])
    {
      assert BalancedStart(lo, q, rem, i + 1) >= BalancedStart(lo, q, rem, i);
    }
    RunsCover(b, s, n);
    BalancedEnd(lo, size, n);
    assert b[..n] == b;
  }

  /** dynamic_groups corrected, over a column. */
  function DynamicGroupsCorrected(col: seq<int>, n: int): (r: Result<seq<seq<int>>, FetalError>)
    ensures |col| == 0 || n == 0 ==> r == DynamicGroupsAsWritten(col, n)
  {
    if |col| == 0 || n == 0 then DynamicGroupsAsWritten(col, n)
    else GroupsCorrected(MinOf(col), MaxOf(col), n)
  }

  /**
   * Corrected, every `n >= 1` that divides the number of values gives `n`
   * consecutive runs of equal length that together are every value from
   * `lo` to `hi`, each once.
   */
  lemma DynamicGroupsCorrectedEven(lo: int, hi: int, n: int, k: int)
    requires n >= 1 && k >= 1 && hi - lo + 1 == n * k
    ensures var r := GroupsCorrected(lo, hi, n);
      r.Ok? && |r.value| == n
      && (forall j :: 0 <= j < n ==> r.value[j] == Interval(lo + j * k, lo + (j + 1) * k))
      && Concat(r.value) == Interval(lo, hi + 1)
  {
    var size := hi - lo + 1;
    MulMonotone(1, k, n);
    DivideExact(size, n, k);
    DynamicGroupsCorrectedBalanced(lo, hi, n);
    assert GroupsCorrected(lo, hi, n) == Ok(Balanced(lo, size, n));
    BalancedEven(lo, n, k);
  }

  /** With no remainder, balanced group `j` is the run of `k` values from `lo + j * k`. */
  lemma BalancedEven(lo: int, n: nat, k: nat)
    requires n >= 1 && (n * k) / n == k && (n * k) % n == 0
    ensures forall j :: 0 <= j < n ==> Balanced(lo, n * k, n)[j] == Interval(lo + j * k, lo + (j + 1) * k)
  {
    forall j | 0 <= j < n
      ensures Balanced(lo, n * k, n)[j] == Interval(lo + j * k, lo + (j + 1) * k)
    {
      BalancedStartAt(lo, k, 0, j);
      BalancedStartAt(lo, k, 0, j + 1);
    }
  }

  /** `n * k` values split into `n` groups leave `k` values per group and no remainder. */
  lemma DivideExact(size: nat, n: nat, k: nat)
    requires n >= 1 && size == n * k
    ensures size / n == k && size % n == 0
  {
    var q, m := size / n, size % n;
    assert n * (k - q) == m;
    if k - q >= 1 {
      MulMonotone(1, k - q, n);
    } else if k - q <= -1 {
      MulMonotone(k - q, -1, n);
    }
  }

  /**
   * Where every group holds at least two values and the values split
   * evenly, the correction gives what the original gives.
   */
  lemma DynamicGroupsCorrectedAgrees(lo: int, hi: int, n: int, k: int)
    requires n >= 1 && k >= 2 && hi - lo + 1 == n * k
    ensures GroupsCorrected(lo, hi, n) == GroupsOf(lo, hi, n)
  {
    DynamicGroupsEven(lo, hi, n, k);
    DynamicGroupsCorrectedEven(lo, hi, n, k);
    var c, o := GroupsCorrected(lo, hi, n).value, GroupsOf(lo, hi, n).value;
    assert forall j :: 0 <= j < n ==> c[j] == o[j];
    assert c == o;
  }

  /**
   * As written, the weeks 1 to 8 in three groups leave week 8 out: the
   * first group takes three weeks and the step of two stops before `l_max`.
   */
  lemma DynamicGroupsUnevenLosesMax()
    ensures GroupsOf(1, 8, 3) == Ok([Interval(1, 4), Interval(4, 6), Interval(6, 8)])
  {
    var k := (8 - 1 + 1) as real / 3 as real;
    assert k * 3.0 == 8.0;
    assert k.Floor == 2 && k != k.Floor as real;
    assert Range(8, 8, 2) == [];
    assert Range(6, 8, 2) == [6];
    assert Range(4, 8, 2) == [4, 6];
    var b := Blocks([4, 6], 2);
    assert b[0] == Interval(4, 6) && b[1] == Interval(6, 8);
    assert b == [Interval(4, 6), Interval(6, 8)];
    assert GroupsOf(1, 8, 3) == Ok([Interval(1, 4)] + b);
    assert [Interval(1, 4)] + b == [Interval(1, 4), Interval(4, 6), Interval(6, 8)];
  }

  /** As written, the weeks 1 to 19 in four groups come out as five groups, the last past week 19. */
  lemma DynamicGroupsUnevenTooMany()
    ensures GroupsOf(1, 19, 4).Ok? && |GroupsOf(1, 19, 4).value| == 5
  {
    var k := (19 - 1 + 1) as real / 4 as real;
    assert k == 4.75;
    assert k.Floor == 4 && k != k.Floor as real;
    assert Range(22, 19, 4) == [];
    assert Range(18, 19, 4) == [18];
    assert Range(14, 19, 4) == [14, 18];
    assert Range(10, 19, 4) == [10, 14, 18];
    assert Range(6, 19, 4) == [6, 10, 14, 18];
    assert |Blocks([6, 10, 14, 18], 4)| == 4;
  }

  /** Corrected, the weeks 1 to 8 in three groups are 1-3, 4-6 and 7-8. */
  lemma DynamicGroupsCorrectedExample()
    ensures GroupsCorrected(1, 8, 3) == Ok([Interval(1, 4), Interval(4, 7), Interval(7, 9)])
  {
    assert 8 / 3 == 2 && 8 % 3 == 2;
    assert BalancedStart(1, 2, 2, 1) == 4 && BalancedStart(1, 2, 2, 2) == 7 && BalancedStart(1, 2, 2, 3) == 9;
    var b := Balanced(1, 8, 3);
    assert b[0] == Interval(1, 4) && b[1] == Interval(4, 7) && b[2] == Interval(7, 9);
    assert b == [Interval(1, 4), Interval(4, 7), Interval(7, 9)];
  }

  /** Each group starts right after the last value of the group before it. */
  predicate Abutting(groups: seq<seq<int>>)
  {
    forall i, j :: 0 <= i < |groups| && 0 <= j < |groups| && j == i + 1 ==> |groups[i]| > 0 && |groups[j]| > 0 && groups[j][0] == Last(groups[i]) + 1
  }

  /**
   * When the values do not split evenly and there are at most as many
   * groups as values, the first group has `floor(k) + 1` values from `lo`
   * and every later group `floor(k)`, each starting right after the one
   * before and below `hi`; together they are the values from `lo` on
   * without a gap, every value below `hi` included.
   */
  lemma DynamicGroupsUneven(lo: int, hi: int, n: int)
    requires 1 <= n <= hi - lo + 1
    requires var k := (hi - lo + 1) as real / n as real; k != k.Floor as real
    ensures var r := GroupsOf(lo, hi, n); var f := ((hi - lo + 1) as real / n as real).Floor;
      r.Ok? && |r.value| >= 1 && r.value[0] == Interval(lo, lo + f + 1)
      && (forall j :: 1 <= j < |r.value| ==> |r.value[j]| == f && r.value[j][0] < hi)
      && Abutting(r.value)
      && Concat(r.value) == Interval(lo, lo + |Concat(r.value)|)
      && lo + |Concat(r.value)| >= hi
  {
    var k := (hi - lo + 1) as real / n as real;
    var f := k.Floor;
    DivTimes((hi - lo + 1) as real, n as real);
    var first := lo + f + 1;
    assert GroupsOf(lo, hi, n) == Ok([Interval(lo, first)] + Blocks(Range(first, hi, f), f));
    UnevenRuns(lo, first, hi, f);
    UnevenAbutting(lo, first, hi, f);
    UnevenCover(lo, first, hi, f);
  }

  /** The groups after a first one from `lo` up to `first` are runs of `f` values, each starting below `hi`. */
  lemma UnevenRuns(lo: int, first: int, hi: int, f: int)
    requires f >= 1 && lo < first
    ensures var r := [Interval(lo, first)] + Blocks(Range(first, hi, f), f);
      forall j :: 1 <= j < |r| ==> |r[j]| == f && r[j][0] < hi
  {
    var r := [Interval(lo, first)] + Blocks(Range(first, hi, f), f);
    forall j | 1 <= j < |r|
      ensures |r[j]| == f && r[j][0] < hi
    {
      UnevenRunAt(lo, first, hi, f, j);
    }
  }

  /** Each of those groups starts right after the one before it. */
  lemma UnevenAbutting(lo: int, first: int, hi: int, f: int)
    requires f >= 1 && lo < first
    ensures Abutting([Interval(lo, first)] + Blocks(Range(first, hi, f), f))
  {
    var r := [Interval(lo, first)] + Blocks(Range(first, hi, f), f);
    forall i, j | 0 <= i < |r| && 0 <= j < |r| && j == i + 1
      ensures |r[i]| > 0 && |r[j]| > 0 && r[j][0] == Last(r[i]) + 1
    {
      UnevenAbutAt(lo, first, hi, f, j);
    }
  }

  /** Together those groups are the values from `lo` up to the end `e` of the last run, and `e` is at least `hi`. */
  lemma UnevenCover(lo: int, first: int, hi: int, f: int)
    requires f >= 1 && lo < first
    ensures var e := first + |Range(first, hi, f)| * f;
      Concat([Interval(lo, first)] + Blocks(Range(first, hi, f), f)) == Interval(lo, e) && e >= hi
  {
    var starts := Range(first, hi, f);
    var e := first + |starts| * f;
    RangeBlocksCover(first, hi, f);
    RangeReach(first, hi, f);
    MulMonotone(0, |starts|, f);
    HeadCover(lo, first, e, Blocks(starts, f));
  }

  /** The run after the last start of `range(start, stop, step)` ends at or past `stop`. */
  lemma RangeReach(start: int, stop: int, step: nat)
    requires step > 0
    ensures start + |Range(start, stop, step)| * step >= stop
  {
    var m := |Range(start, stop, step)|;
    if m > 0 {
      RangeAt(start, stop, step, m - 1);
      MulSucc(m - 1, m, step);
    }
  }

  /** A run from `a` to `b` before runs that cover `b` up to `c` covers `a` up to `c`. */
  lemma HeadCover(a: int, b: int, c: int, rest: seq<seq<int>>)
    requires a <= b <= c && Concat(rest) == Interval(b, c)
    ensures Concat([Interval(a, b)] + rest) == Interval(a, c)
  {
    assert ([Interval(a, b)] + rest)[1..] == rest;
    IntervalSplit(a, b, c);
  }

  /** Past the head, a list is its tail. */
  lemma ConsIndex<T>(x: T, b: seq<T>, j: int)
    requires 1 <= j <= |b|
    ensures ([x] + b)[j] == b[j - 1]
  {
  }

  /** The `j`-th group, `j >= 1`, has `f` values and starts below `hi`. */
  lemma UnevenRunAt(lo: int, first: int, hi: int, f: int, j: int)
    requires f >= 1 && lo < first
    requires 1 <= j < 1 + |Range(first, hi, f)|
    ensures var r := [Interval(lo, first)] + Blocks(Range(first, hi, f), f);
      |r[j]| == f && r[j][0] < hi
  {
    var starts := Range(first, hi, f);
    BlockAt(starts, f, j - 1);
    ConsIndex(Interval(lo, first), Blocks(starts, f), j);
    RangeAt(first, hi, f, j - 1);
  }

  /** The `j`-th group, `j >= 1`, starts right after the last value of group `j - 1`. */
  lemma UnevenAbutAt(lo: int, first: int, hi: int, f: int, j: int)
    requires f >= 1 && lo < first
    requires 1 <= j < 1 + |Range(first, hi, f)|
    ensures var r := [Interval(lo, first)] + Blocks(Range(first, hi, f), f);
      |r[j - 1]| > 0 && |r[j]| > 0 && r[j][0] == Last(r[j - 1]) + 1
  {
    var starts := Range(first, hi, f);
    var r := [Interval(lo, first)] + Blocks(starts, f);
    BlockAt(starts, f, j - 1);
    ConsIndex(Interval(lo, first), Blocks(starts, f), j);
    if j == 1 {
      assert r[0] == Interval(lo, first);
      RangeAt(first, hi, f, 0);
      IntervalAt(lo, first, first - lo - 1);
    } else {
      BlockAt(starts, f, j - 2);
      ConsIndex(Interval(lo, first), Blocks(starts, f), j - 1);
      RangeNext(first, hi, f, j - 1);
    }
  }

  /** The run at the `i`-th start `s` is `range(s, s + f)`: `f` values from `s` to `s + f - 1`. */
  lemma BlockAt(starts: seq<int>, f: int, i: int)
    requires f >= 1 && 0 <= i < |starts|
    ensures var b := Blocks(starts, f)[i];
      b == Interval(starts[i], starts[i] + f) && |b| == f && b[0] == starts[i] && Last(b) == starts[i] + f - 1
  {
    IntervalAt(starts[i], starts[i] + f, 0);
    IntervalAt(starts[i], starts[i] + f, f - 1);
  }

  /** Consecutive starts of `range(start, stop, step)` are `step` apart. */
  lemma RangeNext(start: int, stop: int, step: nat, i: int)
    requires step > 0 && 1 <= i < |Range(start, stop, step)|
    ensures Range(start, stop, step)[i] == Range(start, stop, step)[i - 1] + step
  {
    RangeAt(start, stop, step, i);
    RangeAt(start, stop, step, i - 1);
    MulSucc(i - 1, i, step);
  }

  /** More groups than values: the later groups would step by zero, and range raises ValueError. */
  lemma DynamicGroupsTooMany(lo: int, hi: int, n: int)
    requires lo <= hi && n > hi - lo + 1
    ensures GroupsOf(lo, hi, n) == Err(ValueError)
  {
    DivTimes((hi - lo + 1) as real, n as real);
  }

  /** An empty column raises ValueError and a group count of zero ZeroDivisionError. */
  lemma DynamicGroupsErrors(col: seq<int>, n: int)
    ensures |col| == 0 ==> DynamicGroupsAsWritten(col, n) == Err(ValueError)
    ensures |col| > 0 && n == 0 ==> DynamicGroupsAsWritten(col, n) == Err(ZeroDivisionError)
    ensures |col| > 0 && n != 0 ==> MinOf(col) <= MaxOf(col) && DynamicGroupsAsWritten(col, n) == GroupsOf(MinOf(col), MaxOf(col), n)
  {
  }

  /**
   * The fixed groups are what dynamic_groups makes of four groups over the
   * weeks 24 to 40.
   */
  lemma CreateGroupsIsDynamic()
    ensures GroupsOf(24, 40, 4) == Ok(WeekGroups)
  {
    var k := (40 - 24 + 1) as real / 4 as real;
    assert k == 4.25;
    assert k.Floor == 4 && k != k.Floor as real;
    assert Range(41, 40, 4) == [];
    assert Range(37, 40, 4) == [37];
    assert Range(33, 40, 4) == [33, 37];
    assert Range(29, 40, 4) == [29, 33, 37];
    var b := Blocks([29, 33, 37], 4);
    assert b[0] == Interval(29, 33) && b[1] == Interval(33, 37) && b[2] == Interval(37, 41);
    assert b == [Interval(29, 33), Interval(33, 37), Interval(37, 41)];
    assert GroupsOf(24, 40, 4) == Ok([Interval(24, 29)] + b);
    assert [Interval(24, 29)] + b == WeekGroups;
  }

  // ------------------------------------------------------------ group names

  /** Python `"%d" % n`. */
  function IntToString(n: int): (s: string)
    ensures |s| > 0 && forall i :: 0 <= i < |s| ==> IsDigit(s[i]) || s[i] == '-'
  {
    if n < 0 then "-" + NatToString(-n) else NatToString(n)
  }

  /** Reading back a number written by `%d` gives the number. */
  lemma ParseIntRoundTrip(n: int)
    ensures PyInt(IntToString(n)) == Some(n)
  {
    StripUnchanged(IntToString(n));
    if n < 0 {
      NatToStringRoundTrip(-n);
      assert IntToString(n)[1..] == NatToString(-n);
    } else {
      NatToStringRoundTrip(n);
      assert IsDigit(NatToString(n)[0]);
    }
  }

  /**
   * get_df_column_group_name (tools/fetalMaturationAnalysis.py:124-133): the
   * label `Group_<first>:<last>` of the selected group. An index past the
   * list, or an empty group, raises IndexError.
   */
  function GroupName(gps: seq<seq<int>>, groupId: int): (r: Result<string, FetalError>)
    ensures r.Ok? <==> InBounds(|gps|, groupId) && |At(gps, groupId)| > 0
    ensures r.Err? ==> r.error == IndexError
  {
    if !InBounds(|gps|, groupId) then Err(IndexError)
    else
      var group := At(gps, groupId);
      if |group| == 0 then Err(IndexError)
      else Ok("Group_" + IntToString(First(group)) + ":" + IntToString(Last(group)))
  }

  /**
   * A label splits at its colon into `Group_` with the group's first value
   * and the group's last value, so both ends of the group can be read back
   * from it.
   */
  lemma GroupNameReadBack(gps: seq<seq<int>>, groupId: int)
    requires GroupName(gps, groupId).Ok?
    ensures var group := At(gps, groupId); var fields := Split(GroupName(gps, groupId).value, ':');
      |fields| == 2 && fields[0][..6] == "Group_"
      && PyInt(fields[0][6..]) == Some(group[0])
      && PyInt(fields[1]) == Some(group[|group| - 1])
  {
    var group := At(gps, groupId);
    var a, b := IntToString(group[0]), IntToString(group[|group| - 1]);
    var p := "Group_" + a;
    assert ':' !in p by {
      assert forall i :: 0 <= i < |p| ==> p[i] != ':' by {
        forall i | 0 <= i < |p|
          ensures p[i] != ':'
        {
          if i >= 6 {
            assert p[i] == a[i - 6];
          }
        }
      }
    }
    assert ':' !in b by {
      assert forall i :: 0 <= i < |b| ==> b[i] != ':';
    }
    assert GroupName(gps, groupId).value == Join([p, b], ':');
    SplitJoin([p, b], ':');
    assert p[6..] == a;
    ParseIntRoundTrip(group[0]);
    ParseIntRoundTrip(group[|group| - 1]);
  }

  /** The labels of the four fixed week groups. */
  lemma WeekGroupNames()
    ensures GroupName(WeekGroups, 0) == Ok("Group_24:28")
    ensures GroupName(WeekGroups, 1) == Ok("Group_29:32")
    ensures GroupName(WeekGroups, 2) == Ok("Group_33:36")
    ensures GroupName(WeekGroups, 3) == Ok("Group_37:40")
    ensures GroupName(WeekGroups, 4) == Err(IndexError)
  {
    WeekGroupLabelled(4);
    assert "Group_24:28" == "Group_" + IntToString(24) + ":" + IntToString(28) by { TwoDigits(24); TwoDigits(28); }
    assert "Group_29:32" == "Group_" + IntToString(29) + ":" + IntToString(32) by { TwoDigits(29); TwoDigits(32); }
    assert "Group_33:36" == "Group_" + IntToString(33) + ":" + IntToString(36) by { TwoDigits(33); TwoDigits(36); }
    assert "Group_37:40" == "Group_" + IntToString(37) + ":" + IntToString(40) by { TwoDigits(37); TwoDigits(40); }
    GroupNameOfInterval(WeekGroups, 0, 24, 29);
    GroupNameOfInterval(WeekGroups, 1, 29, 33);
    GroupNameOfInterval(WeekGroups, 2, 33, 37);
    GroupNameOfInterval(WeekGroups, 3, 37, 41);
  }

  /** A non-negative group id has a label exactly when it is one of the four fixed week groups. */
  lemma WeekGroupLabelled(groupId: int)
    requires groupId >= 0
    ensures GroupName(WeekGroups, groupId).Ok? <==> groupId < |WeekGroups|
  {
    if groupId < |WeekGroups| {
      assert |WeekGroups[groupId]| >= 4;
    }
  }

  /** A two-digit number is written as its tens digit and its units digit. */
  lemma TwoDigits(n: nat)
    requires 10 <= n < 100
    ensures IntToString(n) == ['0' + (n / 10) as char, '0' + (n % 10) as char]
  {
    assert NatToString(n / 10) == ['0' + (n / 10) as char];
  }

  /** The label of a group `range(a, b)` names `a` and `b - 1`. */
  lemma GroupNameOfInterval(gps: seq<seq<int>>, groupId: int, a: int, b: int)
    requires 0 <= groupId < |gps| && gps[groupId] == Interval(a, b) && a < b
    ensures GroupName(gps, groupId) == Ok("Group_" + IntToString(a) + ":" + IntToString(b - 1))
  {
    IntervalAt(a, b, 0);
    IntervalAt(a, b, b - a - 1);
  }

  // ------------------------------------------------ process_data_frames_list

  /** One row of the result: the group's label and the metrics of its data frame. */
  datatype Row = Row(groupName: string, metrics: seq<real>)

  /**
   * process_data_frames_list (tools/fetalMaturationAnalysis.py:215-231): the
   * frames get group ids 0, 1, 2, … in list order, each becomes one row
   * labelled with the fixed week group of its id (tools/fetalMaturationAnalysis.py:194-195),
   * and the rows are concatenated. A frame past the fourth has no group and
   * raises IndexError; no frames at all leave `pd.concat` nothing and it
   * raises ValueError.
   */
  method ProcessDataFramesList<F>(frames: seq<F>, metrics: F -> seq<real>) returns (r: Result<seq<Row>, FetalError>)
    ensures r.Ok? <==> 0 < |frames| <= |WeekGroups|
    ensures r.Err? ==> r.error == (if |frames| == 0 then ValueError else IndexError)
    ensures r.Ok? ==> |r.value| == |frames|
    ensures r.Ok? ==> forall i :: 0 <= i < |frames| ==> r.value[i] == Row(GroupName(WeekGroups, i).value, metrics(frames[i]))
  {
    var groups := CreateGroups();
    r := LabelFrames(frames, metrics, groups);
  }

  /** The loop of process_data_frames_list over any list of non-empty groups. */
  method LabelFrames<F>(frames: seq<F>, metrics: F -> seq<real>, groups: seq<seq<int>>) returns (r: Result<seq<Row>, FetalError>)
    requires forall g :: 0 <= g < |groups| ==> |groups[g]| > 0
    ensures r.Ok? <==> 0 < |frames| <= |groups|
    ensures r.Err? ==> r.error == (if |frames| == 0 then ValueError else IndexError)
    ensures r.Ok? ==> |r.value| == |frames|
    ensures r.Ok? ==> forall i :: 0 <= i < |frames| ==> r.value[i] == Row(GroupName(groups, i).value, metrics(frames[i]))
  {
    var rows: seq<Row> := [];
    var groupId := 0;
    for j := 0 to |frames|
      invariant groupId == j && |rows| == j && j <= |groups|
      invariant forall i :: 0 <= i < j ==> GroupName(groups, i).Ok? && rows[i] == Row(GroupName(groups, i).value, metrics(frames[i]))
    {
      var name := GroupName(groups, groupId);
      if name.Err? {
        return Err(name.error);
      }
      rows := rows + [Row(name.value, metrics(frames[j]))];
      groupId := groupId + 1;
    }
    if |rows| == 0 {
      return Err(ValueError);
    }
    r := Ok(rows);
  }
}
