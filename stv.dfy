// tools/analysingSTV.py and its copy tools/stv_analysis.py: short-term
// variability of a heart-rate record. The record is cut into subsets of a
// fixed number of samples, heart rates become inter-beat intervals
// (60000 / rate), and each subset is summarised by a parametrised sum of
// absolute consecutive differences. The formulas that need pow, sqrt,
// medians, deviations or quantiles enter as parameters.

module Stv {
  import opened Builtins
  import opened UtilityFunctions

  /** The ways a run fails: Python exceptions, and a numpy division by a zero mean. */
  datatype StvError = ZeroDivisionError | ValueError | NotFinite | IOError

  // ------------------------------------------------------ inter-beat intervals

  /**
   * interbeat_interval_from_list: each heart rate `v` becomes the interval
   * `60000 / v` in milliseconds; a zero rate raises ZeroDivisionError.
   */
  function Interbeat(rates: seq<real>): (r: Result<seq<real>, StvError>)
    ensures r.Ok? <==> forall i :: 0 <= i < |rates| ==> rates[i] != 0.0
    ensures r.Ok? ==> |r.value| == |rates| && forall i :: 0 <= i < |rates| ==> r.value[i] == 60000.0 / rates[i]
    ensures r.Err? ==> r.error == ZeroDivisionError
  {
    if rates == [] then Ok([])
    else if rates[0] == 0.0 then Err(ZeroDivisionError)
    else
      match Interbeat(rates[1..])
      case Err(e) => Err(e)
      case Ok(rest) => Ok([60000.0 / rates[0]] + rest)
  }

  /** `map(interbeat_interval_from_list, subsets)`: every subset converted, or the first failure. */
  function InterbeatAll(subsets: seq<seq<real>>): (r: Result<seq<seq<real>>, StvError>)
    ensures r.Ok? <==> forall i :: 0 <= i < |subsets| ==> Interbeat(subsets[i]).Ok?
    ensures r.Ok? ==> |r.value| == |subsets| && forall i :: 0 <= i < |subsets| ==> r.value[i] == Interbeat(subsets[i]).value
  {
    if subsets == [] then Ok([])
    else
      match Interbeat(subsets[0])
      case Err(e) => Err(e)
      case Ok(first) =>
        match InterbeatAll(subsets[1..])
        case Err(e) => Err(e)
        case Ok(rest) => Ok([first] + rest)
  }

  // ---------------------------------------------------------------- subsets

  /** `filter(lambda lst: len(lst) == samples, lists)`, the length compared as a float. */
  function KeepLength(lists: seq<seq<real>>, samples: real): (r: seq<seq<real>>)
    ensures |r| <= |lists|
    ensures forall i :: 0 <= i < |r| ==> |r[i]| as real == samples
  {
    if lists == [] then []
    else if |lists[0]| as real == samples then [lists[0]] + KeepLength(lists[1..], samples)
    else KeepLength(lists[1..], samples)
  }

  /**
   * list_preparation_to_extract_ti (tools/analysingSTV.py:71-92): chunks of
   * `int(duration * frequency)` samples, only those whose length equals
   * `duration * frequency`, each turned into inter-beat intervals. A product
   * that truncates to zero makes `range` raise ValueError.
   */
  function ListPreparation(series: seq<real>, duration: real, frequency: int): (r: Result<seq<seq<real>>, StvError>)
  {
    var samples := duration * frequency as real;
    var size := Trunc(samples);
    if size == 0 then Err(ValueError)
    else InterbeatAll(KeepLength(ListOfListsWithSize(series, size), samples))
  }

  /** The full chunks of `k` samples of a record. */
  function FullBlocks(series: seq<real>, k: int): (r: seq<seq<real>>)
    requires k >= 1
    ensures forall i :: 0 <= i < |r| ==> |r[i]| == k
  {
    KeepLength(ListOfListsWithSize(series, k), k as real)
  }

  /** The consecutive full chunks of `k` samples from position `from` on, an independent definition. */
  function Whole(s: seq<real>, from: nat, k: int): (r: seq<seq<real>>)
    requires k >= 1
    decreases |s| - from
  {
    if from + k > |s| then [] else [s[from..from + k]] + Whole(s, from + k, k)
  }

  /**
   * The full chunks all have `k` samples and, concatenated, are the longest
   * prefix of the record whose length is a multiple of `k`: fewer than `k`
   * samples are left over.
   */
  lemma FullBlocksSpec(series: seq<real>, k: int)
    requires k >= 1
    ensures var b := FullBlocks(series, k);
      (forall i :: 0 <= i < |b| ==> |b[i]| == k)
      && |Concat(b)| <= |series| && Concat(b) == series[..|Concat(b)|]
      && |series| - |Concat(b)| < k
  {
    KeepFullIsWhole(series, 0, k);
    WholeSpec(series, 0, k);
  }

  /** Keeping the chunks of length `k` from position `from` gives the full chunks from there. */
  lemma {:induction false} KeepFullIsWhole(series: seq<real>, from: nat, k: int)
    requires k >= 1 && from <= |series|
    ensures KeepLength(ChunksFrom(series, from, k), k as real) == Whole(series, from, k)
    decreases |series| - from
  {
    if from + k <= |series| {
      KeepFullIsWhole(series, from + k, k);
      KeepFullStep(series, from, k);
      assert Whole(series, from, k) == [series[from..from + k]] + Whole(series, from + k, k);
    } else {
      KeepShortStep(series, from, k);
    }
  }

  /** A full chunk at `from` is kept, followed by what is kept after it. */
  lemma KeepFullStep(series: seq<real>, from: nat, k: int)
    requires k >= 1 && from + k <= |series|
    ensures KeepLength(ChunksFrom(series, from, k), k as real)
            == [series[from..from + k]] + KeepLength(ChunksFrom(series, from + k, k), k as real)
  {
    var chunks := ChunksFrom(series, from, k);
    assert chunks == [series[from..from + k]] + ChunksFrom(series, from + k, k);
    assert chunks[1..] == ChunksFrom(series, from + k, k);
  }

  /** Fewer than `k` samples from `from` leave nothing to keep. */
  lemma KeepShortStep(series: seq<real>, from: nat, k: int)
    requires k >= 1 && from <= |series| < from + k
    ensures KeepLength(ChunksFrom(series, from, k), k as real) == []
  {
    if from < |series| {
      assert ChunksFrom(series, from + k, k) == [];
      assert Slice(series, from, from + k) == series[from..];
      assert ChunksFrom(series, from, k) == [series[from..]];
    }
  }

  lemma {:induction false} WholeSpec(s: seq<real>, from: nat, k: int)
    requires k >= 1 && from <= |s|
    ensures var b := Whole(s, from, k);
      (forall i :: 0 <= i < |b| ==> |b[i]| == k)
      && from + |Concat(b)| <= |s| && Concat(b) == s[from..from + |Concat(b)|]
      && |s| - from - |Concat(b)| < k
    decreases |s| - from
  {
    if from + k <= |s| {
      var rest := Whole(s, from + k, k);
      WholeSpec(s, from + k, k);
      var c := s[from..from + k];
      assert Whole(s, from, k) == [c] + rest;
      assert ([c] + rest)[1..] == rest;
      assert Concat([c] + rest) == c + Concat(rest);
      assert s[from..from + k + |Concat(rest)|] == c + s[from + k..from + k + |Concat(rest)|];
    }
  }

  /**
   * When `duration * frequency` is a whole number `k` of at least one
   * sample, the preparation converts exactly the full chunks of `k`
   * samples, and fails exactly when one of them holds a zero rate.
   */
  lemma ListPreparationFull(series: seq<real>, duration: real, frequency: int, k: int)
    requires k >= 1 && duration * frequency as real == k as real
    ensures ListPreparation(series, duration, frequency) == InterbeatAll(FullBlocks(series, k))
    ensures var b := FullBlocks(series, k);
      ListPreparation(series, duration, frequency).Ok? <==> forall i, j :: 0 <= i < |b| && 0 <= j < |b[i]| ==> b[i][j] != 0.0
  {
    TruncOfInteger(k);
    var b := FullBlocks(series, k);
    if forall i, j :: 0 <= i < |b| && 0 <= j < |b[i]| ==> b[i][j] != 0.0 {
      forall i | 0 <= i < |b|
        ensures Interbeat(b[i]).Ok?
      {
        assert forall j :: 0 <= j < |b[i]| ==> b[i][j] != 0.0;
      }
    }
  }

  // ---------------------------------------------------- parametrised sums

  /** The list `list_of_res` of loop_result_for_parametrized_sum after the iterations below `end`. */
  function Terms(start: int, end: int, l: seq<real>, divisor: real): (r: seq<real>)
    requires 0 <= start && (start < end ==> end < |l| && divisor != 0.0)
    decreases end - start
  {
    if end <= start then [] else Terms(start, end - 1, l, divisor) + [Abs(l[end] - l[end - 1]) / divisor]
  }

  /**
   * loop_result_for_parametrized_sum (tools/analysingSTV.py:95-99):
   * `sum(|l[i+1] - l[i]| / divisor for i in range(start, end))`.
   */
  function ParametrizedSum(start: int, end: int, l: seq<real>, divisor: real): (r: real)
    requires 0 <= start && (start < end ==> end < |l| && divisor != 0.0)
  {
    Sum(Terms(start, end, l, divisor))
  }

  /** loop_result_for_parametrized_sum with its accumulating loop. */
  method LoopResultForParametrizedSum(start: int, end: int, l: seq<real>, divisor: real) returns (r: real)
    requires 0 <= start && (start < end ==> end < |l| && divisor != 0.0)
    ensures r == ParametrizedSum(start, end, l, divisor)
  {
    var res := [];
    var i := start;
    while i < end
      invariant i == start || start < i <= end
      invariant res == Terms(start, i, l, divisor)
    {
      res := res + [Abs(l[i + 1] - l[i]) / divisor];
      i := i + 1;
    }
    r := Sum(res);
  }

  /** The list of loop_result_for_parametrized_sum_order_inverted after the iterations below `end`. */
  function InvertedTerms(start: int, end: int, l: seq<real>, divisor: real): (r: seq<real>)
    requires 1 <= start && (start < end ==> end <= |l| && divisor != 0.0)
    decreases end - start
  {
    if end <= start then [] else InvertedTerms(start, end - 1, l, divisor) + [Abs(l[end - 1] - l[end - 2]) / divisor]
  }

  /**
   * loop_result_for_parametrized_sum_order_inverted
   * (tools/analysingSTV.py:102-106): `sum(|l[i] - l[i-1]| / divisor for i
   * in range(start, end))`.
   */
  function InvertedSum(start: int, end: int, l: seq<real>, divisor: real): (r: real)
    requires 1 <= start && (start < end ==> end <= |l| && divisor != 0.0)
  {
    Sum(InvertedTerms(start, end, l, divisor))
  }

  /** loop_result_for_parametrized_sum_order_inverted with its accumulating loop. */
  method LoopResultForParametrizedSumOrderInverted(start: int, end: int, l: seq<real>, divisor: real) returns (r: real)
    requires 1 <= start && (start < end ==> end <= |l| && divisor != 0.0)
    ensures r == InvertedSum(start, end, l, divisor)
  {
    var res := [];
    var i := start;
    while i < end
      invariant i == start || start < i <= end
      invariant res == InvertedTerms(start, i, l, divisor)
    {
      res := res + [Abs(l[i] - l[i - 1]) / divisor];
      i := i + 1;
    }
    r := Sum(res);
  }

  /** The order-inverted sum over `[start, end)` is the forward sum over `[start - 1, end - 1)`. */
  lemma {:induction false} InvertedIsForward(start: int, end: int, l: seq<real>, divisor: real)
    requires 1 <= start && (start < end ==> end <= |l| && divisor != 0.0)
    ensures InvertedTerms(start, end, l, divisor) == Terms(start - 1, end - 1, l, divisor)
    ensures InvertedSum(start, end, l, divisor) == ParametrizedSum(start - 1, end - 1, l, divisor)
    decreases end - start
  {
    if start < end {
      InvertedIsForward(start, end - 1, l, divisor);
    }
  }

  /** The total variation of a list: the sum of its absolute consecutive differences. */
  function Variation(x: seq<real>): (r: real)
    ensures r >= 0.0
  {
    if |x| < 2 then 0.0 else Abs(x[1] - x[0]) + Variation(x[1..])
  }

  lemma {:induction false} VariationSnoc(x: seq<real>, y: real)
    requires |x| >= 1
    ensures Variation(x + [y]) == Variation(x) + Abs(y - x[|x| - 1])
  {
    if |x| >= 2 {
      assert (x + [y])[1..] == x[1..] + [y];
      VariationSnoc(x[1..], y);
    } else {
      assert (x + [y])[1..] == [y];
    }
  }

  /**
   * The parametrised sum over `[start, end)` is the total variation of
   * `l[start..end]` (both ends included) divided by the divisor.
   */
  lemma {:induction false} ParametrizedSumIsVariation(start: int, end: int, l: seq<real>, divisor: real)
    requires 0 <= start <= end < |l| && divisor != 0.0
    ensures ParametrizedSum(start, end, l, divisor) == Variation(l[start..end + 1]) / divisor
    decreases end - start
  {
    if start < end {
      ParametrizedSumIsVariation(start, end - 1, l, divisor);
      var a := Abs(l[end] - l[end - 1]);
      var t := a / divisor;
      SumAppend(Terms(start, end - 1, l, divisor), [t]);
      assert Sum([t]) == t;
      assert l[start..end + 1] == l[start..end] + [l[end]];
      VariationSnoc(l[start..end], l[end]);
      DivAdd(Variation(l[start..end]), a, divisor);
    }
  }

  lemma DivAdd(a: real, b: real, d: real)
    requires d != 0.0
    ensures a / d + b / d == (a + b) / d
  {
  }

  lemma DivNonNegative(a: real, d: real)
    requires a >= 0.0 && d > 0.0
    ensures a / d >= 0.0
  {
  }

  /** With a positive divisor the parametrised sum is never negative. */
  lemma ParametrizedSumNonNegative(start: int, end: int, l: seq<real>, divisor: real)
    requires 0 <= start && (start < end ==> end < |l|) && divisor > 0.0
    ensures ParametrizedSum(start, end, l, divisor) >= 0.0
  {
    if start < end {
      ParametrizedSumIsVariation(start, end, l, divisor);
      DivNonNegative(Variation(l[start..end + 1]), divisor);
    }
  }

  // ------------------------------------------------------------ algorithms

  /** The Arduini value of one subset: the sum over `[0, len - 1)` divided by `len - 1`. */
  function ArduiniOf(lst: seq<real>): (r: real)
  {
    ParametrizedSum(0, |lst| - 1, lst, (|lst| - 1) as real)
  }

  /** The Dalton value of one subset: the order-inverted sum over `[1, len)` halved. */
  function DaltonOf(lst: seq<real>): (r: real)
  {
    InvertedSum(1, |lst|, lst, 2.0)
  }

  /** stv_arduini (tools/analysingSTV.py:109-120): one value per prepared 60 s subset. */
  function StvArduini(series: seq<real>, frequency: int): (r: Result<seq<real>, StvError>)
  {
    match ListPreparation(series, 60.0, frequency)
    case Err(e) => Err(e)
    case Ok(subsets) => Ok(seq(|subsets|, i requires 0 <= i < |subsets| => ArduiniOf(subsets[i])))
  }

  /** stv_dalton (tools/analysingSTV.py:138-143): one value per prepared 60 s subset. */
  function StvDalton(series: seq<real>, frequency: int): (r: Result<seq<real>, StvError>)
  {
    match ListPreparation(series, 60.0, frequency)
    case Err(e) => Err(e)
    case Ok(subsets) => Ok(seq(|subsets|, i requires 0 <= i < |subsets| => DaltonOf(subsets[i])))
  }

  /**
   * The sum over `[0, len - 1)` divided by the subset's mean, as stv_organ
   * and stv_arduini_mod compute it; a zero mean under a non-empty sum is a
   * numpy division by zero, which yields no finite value.
   */
  function MeanScaled(lst: seq<real>): (r: Result<real, StvError>)
    requires |lst| > 0
  {
    if |lst| > 1 && Mean(lst) == 0.0 then Err(NotFinite)
    else Ok(ParametrizedSum(0, |lst| - 1, lst, Mean(lst)))
  }

  /**
   * Every subset of a successful preparation is non-empty: only chunks of
   * the length asked for are kept, and that length is not zero.
   */
  lemma PreparedNonEmpty(series: seq<real>, duration: real, frequency: int)
    ensures var p := ListPreparation(series, duration, frequency);
      p.Ok? ==> forall i :: 0 <= i < |p.value| ==> |p.value[i]| > 0
  {
    var samples := duration * frequency as real;
    if Trunc(samples) != 0 {
      var kept := KeepLength(ListOfListsWithSize(series, Trunc(samples)), samples);
      assert samples != 0.0;
      assert forall i :: 0 <= i < |kept| ==> |kept[i]| > 0;
    }
  }

  /** `map` of MeanScaled over subsets: every value, or the first failure. */
  function MeanScaledAll(subsets: seq<seq<real>>): (r: Result<seq<real>, StvError>)
    requires forall i :: 0 <= i < |subsets| ==> |subsets[i]| > 0
    ensures r.Ok? ==> |r.value| == |subsets| && forall i :: 0 <= i < |subsets| ==> MeanScaled(subsets[i]) == Ok(r.value[i])
    ensures r.Err? ==> exists i :: 0 <= i < |subsets| && MeanScaled(subsets[i]).Err?
  {
    if subsets == [] then Ok([])
    else
      match MeanScaled(subsets[0])
      case Err(e) => Err(e)
      case Ok(first) =>
        match MeanScaledAll(subsets[1..])
        case Err(e) => (assert subsets[1..][0] == subsets[1]; Err(e))
        case Ok(rest) => Ok([first] + rest)
  }

  /** stv_arduini_mod (tools/analysingSTV.py:123-134): the prepared 60 s subsets scaled by their means. */
  function StvArduiniMod(series: seq<real>, frequency: int): (r: Result<seq<real>, StvError>)
  {
    match ListPreparation(series, 60.0, frequency)
    case Err(e) => Err(e)
    case Ok(subsets) =>
      PreparedNonEmpty(series, 60.0, frequency);
      MeanScaledAll(subsets)
  }

  /**
   * stv_organ (tools/analysingSTV.py:147-156): the raw rates cut into full
   * subsets of `30 * frequency` samples, each scaled by its mean.
   */
  function StvOrgan(series: seq<real>, frequency: int): (r: Result<seq<real>, StvError>)
  {
    var size := 30 * frequency;
    if size == 0 then Err(ValueError)
    else
      var subsets := KeepLength(ListOfListsWithSize(series, size), size as real);
      assert forall i :: 0 <= i < |subsets| ==> |subsets[i]| as real == size as real;
      MeanScaledAll(subsets)
  }

  /**
   * stv_zugaiv (tools/analysingSTV.py:248-264): the whole record turned into
   * intervals, cut into chunks of 127, only the full ones kept, each given
   * to the Zugaiv formula (a parameter here: it needs a median).
   */
  function StvZugaiv(series: seq<real>, formula: seq<real> -> real): (r: Result<seq<real>, StvError>)
  {
    match Interbeat(series)
    case Err(e) => Err(e)
    case Ok(ti) =>
      var subsets := KeepLength(ListOfListsWithSize(ti, 127), 127.0);
      Ok(seq(|subsets|, i requires 0 <= i < |subsets| => formula(subsets[i])))
  }

  /**
   * stv_sd_subsets (tools/analysingSTV.py:267-270): the raw rates cut into
   * chunks of `frequency * 60` samples, the short last chunk included, each
   * given to the deviation `std` (a parameter here).
   */
  function StvSdSubsets(series: seq<real>, frequency: int, std: seq<real> -> real): (r: Result<seq<real>, StvError>)
  {
    var size := frequency * 60;
    if size == 0 then Err(ValueError)
    else
      var chunks := ListOfListsWithSize(series, size);
      Ok(seq(|chunks|, i requires 0 <= i < |chunks| => std(chunks[i])))
  }

  // --------------------------------------------------- algorithm properties

  /** Arduini: each value is the subset's total variation over `len - 1`, never negative. */
  lemma ArduiniIsVariation(lst: seq<real>)
    requires |lst| >= 2
    ensures ArduiniOf(lst) == Variation(lst) / (|lst| - 1) as real
    ensures ArduiniOf(lst) >= 0.0
  {
    ParametrizedSumIsVariation(0, |lst| - 1, lst, (|lst| - 1) as real);
    assert lst[0..|lst|] == lst;
    DivNonNegative(Variation(lst), (|lst| - 1) as real);
  }

  /** Dalton: the order-inverted sum over `[1, len)` is the forward one over `[0, len - 1)`, so half the total variation. */
  lemma DaltonIsForward(lst: seq<real>)
    requires |lst| >= 1
    ensures DaltonOf(lst) == ParametrizedSum(0, |lst| - 1, lst, 2.0)
    ensures DaltonOf(lst) == Variation(lst) / 2.0
  {
    InvertedIsForward(1, |lst|, lst, 2.0);
    ParametrizedSumIsVariation(0, |lst| - 1, lst, 2.0);
    assert lst[0..|lst|] == lst;
  }

  /** An element of a chunk is an element of the concatenation of the chunks. */
  lemma {:induction false} ConcatElement(b: seq<seq<real>>, i: int, j: int)
    requires 0 <= i < |b| && 0 <= j < |b[i]|
    ensures b[i][j] in Concat(b)
  {
    if i > 0 {
      ConcatElement(b[1..], i - 1, j);
      assert b[1..][i - 1] == b[i];
    }
  }

  /** Every sample of a full chunk is a sample of the record. */
  lemma FullBlocksElement(series: seq<real>, k: int, i: int, j: int)
    requires k >= 1 && 0 <= i < |FullBlocks(series, k)| && 0 <= j < |FullBlocks(series, k)[i]|
    ensures FullBlocks(series, k)[i][j] in series
  {
    var b := FullBlocks(series, k);
    FullBlocksSpec(series, k);
    ConcatElement(b, i, j);
    assert Concat(b) == series[..|Concat(b)|];
  }

  /**
   * The 60 s preparation at a positive whole frequency and with no zero
   * rate: one list of `60 * frequency` intervals per full chunk.
   */
  lemma PreparedMinutes(series: seq<real>, frequency: int)
    requires frequency >= 1
    requires forall i :: 0 <= i < |series| ==> series[i] != 0.0
    ensures var b := FullBlocks(series, 60 * frequency); var p := ListPreparation(series, 60.0, frequency);
      p.Ok? && |p.value| == |b|
      && forall i :: 0 <= i < |b| ==> p.value[i] == Interbeat(b[i]).value && |p.value[i]| == 60 * frequency
  {
    var k := 60 * frequency;
    var b := FullBlocks(series, k);
    FullBlocksSpec(series, k);
    forall i, j | 0 <= i < |b| && 0 <= j < |b[i]|
      ensures b[i][j] != 0.0
    {
      FullBlocksElement(series, k, i, j);
    }
    ListPreparationFull(series, 60.0, frequency, k);
  }

  /**
   * stv_arduini at a positive whole frequency: one value per prepared
   * subset (see PreparedMinutes), the subset's total variation over
   * `60 * frequency - 1`.
   */
  lemma StvArduiniSpec(series: seq<real>, frequency: int)
    requires frequency >= 1
    requires forall i :: 0 <= i < |series| ==> series[i] != 0.0
    ensures var p := ListPreparation(series, 60.0, frequency); var r := StvArduini(series, frequency);
      p.Ok? && r.Ok? && |r.value| == |p.value|
      && forall i :: 0 <= i < |p.value| ==> r.value[i] == Variation(p.value[i]) / (60 * frequency - 1) as real
  {
    PreparedMinutes(series, frequency);
    var subsets := ListPreparation(series, 60.0, frequency).value;
    var d := (60 * frequency - 1) as real;
    forall i | 0 <= i < |subsets|
      ensures ArduiniOf(subsets[i]) == Variation(subsets[i]) / d
    {
      ArduiniWithDivisor(subsets[i], d);
    }
  }

  lemma ArduiniWithDivisor(lst: seq<real>, d: real)
    requires |lst| >= 2 && d == (|lst| - 1) as real
    ensures ArduiniOf(lst) == Variation(lst) / d
  {
    ArduiniIsVariation(lst);
  }

  /**
   * stv_dalton at a positive whole frequency: one value per prepared
   * subset, half the subset's total variation.
   */
  lemma StvDaltonSpec(series: seq<real>, frequency: int)
    requires frequency >= 1
    requires forall i :: 0 <= i < |series| ==> series[i] != 0.0
    ensures var p := ListPreparation(series, 60.0, frequency); var r := StvDalton(series, frequency);
      p.Ok? && r.Ok? && |r.value| == |p.value|
      && forall i :: 0 <= i < |p.value| ==> r.value[i] == Variation(p.value[i]) / 2.0
  {
    PreparedMinutes(series, frequency);
    var subsets := ListPreparation(series, 60.0, frequency).value;
    forall i | 0 <= i < |subsets|
      ensures DaltonOf(subsets[i]) == Variation(subsets[i]) / 2.0
    {
      DaltonIsForward(subsets[i]);
    }
  }

  /**
   * stv_organ with a positive frequency: its subsets are the full chunks
   * of `30 * frequency` raw rates, and a successful run gives one
   * non-negative value per subset when the rates are positive.
   */
  lemma StvOrganSpec(series: seq<real>, frequency: int)
    requires frequency >= 1
    ensures var b := FullBlocks(series, 30 * frequency); var r := StvOrgan(series, frequency);
      (r.Ok? ==> |r.value| == |b| && forall i :: 0 <= i < |b| ==> MeanScaled(b[i]) == Ok(r.value[i]))
      && ((forall i :: 0 <= i < |series| ==> series[i] > 0.0) ==> r.Ok? && forall i :: 0 <= i < |r.value| ==> r.value[i] >= 0.0)
  {
    var k := 30 * frequency;
    var b := FullBlocks(series, k);
    FullBlocksSpec(series, k);
    if forall i :: 0 <= i < |series| ==> series[i] > 0.0 {
      forall i | 0 <= i < |b|
        ensures MeanScaled(b[i]).Ok? && MeanScaled(b[i]).value >= 0.0
      {
        forall j | 0 <= j < |b[i]|
          ensures b[i][j] > 0.0
        {
          FullBlocksElement(series, k, i, j);
        }
        SumPositive(b[i]);
        ParametrizedSumNonNegative(0, |b[i]| - 1, b[i], Mean(b[i]));
      }
    }
  }

  /**
   * stv_arduini_mod at a positive whole frequency and with no zero rate:
   * the preparation succeeds, a successful run gives one mean-scaled value
   * per prepared subset, and positive rates always succeed with values that
   * are not negative.
   */
  lemma StvArduiniModSpec(series: seq<real>, frequency: int)
    requires frequency >= 1
    requires forall i :: 0 <= i < |series| ==> series[i] != 0.0
    ensures var p := ListPreparation(series, 60.0, frequency); var r := StvArduiniMod(series, frequency);
      p.Ok?
      && (r.Ok? ==> |r.value| == |p.value| && forall i :: 0 <= i < |p.value| ==> MeanScaled(p.value[i]) == Ok(r.value[i]))
      && ((forall i :: 0 <= i < |series| ==> series[i] > 0.0) ==> r.Ok? && forall i :: 0 <= i < |r.value| ==> r.value[i] >= 0.0)
  {
    PreparedMinutes(series, frequency);
    var subsets := ListPreparation(series, 60.0, frequency).value;
    if forall i :: 0 <= i < |series| ==> series[i] > 0.0 {
      forall i | 0 <= i < |subsets|
        ensures MeanScaled(subsets[i]).Ok? && MeanScaled(subsets[i]).value >= 0.0
      {
        PreparedPositive(series, frequency, i);
        PositiveMeanScaled(subsets[i]);
      }
    }
  }

  /** With positive rates, every interval of a prepared 60 s subset is positive. */
  lemma PreparedPositive(series: seq<real>, frequency: int, i: int)
    requires frequency >= 1
    requires forall i :: 0 <= i < |series| ==> series[i] > 0.0
    requires ListPreparation(series, 60.0, frequency).Ok? && 0 <= i < |ListPreparation(series, 60.0, frequency).value|
    ensures var s := ListPreparation(series, 60.0, frequency).value[i];
      |s| > 0 && forall j :: 0 <= j < |s| ==> s[j] > 0.0
  {
    PreparedMinutes(series, frequency);
    var k := 60 * frequency;
    var b := FullBlocks(series, k);
    var s := ListPreparation(series, 60.0, frequency).value[i];
    assert |b[i]| == |s|;
    forall j | 0 <= j < |s|
      ensures s[j] > 0.0
    {
      FullBlocksElement(series, k, i, j);
      IntervalPositive(b[i][j]);
    }
  }

  /** A positive rate gives a positive interval. */
  lemma IntervalPositive(v: real)
    requires v > 0.0
    ensures 60000.0 / v > 0.0
  {
  }

  /** A non-empty list of positive values scales by its mean to a value that is not negative. */
  lemma PositiveMeanScaled(lst: seq<real>)
    requires |lst| > 0 && forall j :: 0 <= j < |lst| ==> lst[j] > 0.0
    ensures MeanScaled(lst).Ok? && MeanScaled(lst).value >= 0.0
  {
    SumPositive(lst);
    ParametrizedSumNonNegative(0, |lst| - 1, lst, Mean(lst));
  }

  /** A non-empty list of positive values has a positive sum. */
  lemma {:induction false} SumPositive(s: seq<real>)
    requires |s| > 0 && forall i :: 0 <= i < |s| ==> s[i] > 0.0
    ensures Sum(s) > 0.0
  {
    if |s| > 1 {
      SumPositive(s[1..]);
    }
  }

  /**
   * stv_zugaiv keeps exactly the full chunks of 127 intervals: fewer than
   * 127 intervals at the end of the record are dropped.
   */
  lemma StvZugaivSpec(series: seq<real>, formula: seq<real> -> real)
    requires forall i :: 0 <= i < |series| ==> series[i] != 0.0
    ensures var ti := Interbeat(series).value; var b := FullBlocks(ti, 127);
      StvZugaiv(series, formula) == Ok(seq(|b|, i requires 0 <= i < |b| => formula(b[i])))
      && (forall i :: 0 <= i < |b| ==> |b[i]| == 127)
      && |Concat(b)| <= |ti| && Concat(b) == ti[..|Concat(b)|] && |ti| - |Concat(b)| < 127
  {
    FullBlocksSpec(Interbeat(series).value, 127);
  }

  /**
   * stv_sd_subsets keeps every chunk, the short last one included: the
   * chunks given to `std` concatenate back to the whole record.
   */
  lemma StvSdSubsetsSpec(series: seq<real>, frequency: int, std: seq<real> -> real)
    requires frequency >= 1
    ensures var chunks := ListOfListsWithSize(series, frequency * 60);
      StvSdSubsets(series, frequency, std).Ok?
      && |StvSdSubsets(series, frequency, std).value| == |chunks|
      && (forall i :: 0 <= i < |chunks| ==> StvSdSubsets(series, frequency, std).value[i] == std(chunks[i]))
      && Concat(chunks) == series
  {
    ChunksCover(series, frequency * 60);
  }

  // ------------------------------------------------------------- dispatch

  /** AVAILABLE_ALGORITHMS (tools/analysingSTV.py:56-57). */
  const AvailableAlgorithms: seq<string> := ["arduini", "arduini_mod", "dalton", "organ", "sonicaid", "yeh", "zugaiv", "sd", "sd_subsets"]

  /** Python 2 `str.lower` on one character: ASCII letters only. */
  function LowerChar(c: char): char
  {
    if 'A' <= c <= 'Z' then (c as int + 32) as char else c
  }

  /** Python 2 `str.lower`. */
  function Lower(s: string): (r: string)
    ensures |r| == |s| && forall i :: 0 <= i < |s| ==> r[i] == LowerChar(s[i])
  {
    if s == [] then [] else [LowerChar(s[0])] + Lower(s[1..])
  }

  /** No available algorithm name reads as `all`. */
  lemma NoAlgorithmIsAll()
    ensures forall i :: 0 <= i < |AvailableAlgorithms| ==> Lower(AvailableAlgorithms[i]) != "all"
  {
    assert Lower("yeh")[0] == 'y';
  }

  /**
   * compute_stv_metric_of_directory (tools/analysingSTV.py:308-344), the
   * choice of what to run: `all` in any case runs itself once per available
   * algorithm, an available name runs that algorithm, anything else raises
   * IOError. The result lists the algorithms run, in order.
   */
  function Dispatch(name: string): (r: Result<seq<string>, StvError>)
    decreases if Lower(name) == "all" then 1 else 0, 0
  {
    if Lower(name) == "all" then
      NoAlgorithmIsAll();
      DispatchEach(AvailableAlgorithms)
    else if name in AvailableAlgorithms then Ok([name])
    else Err(IOError)
  }

  /** The `map` over the algorithm names in the `all` branch. */
  function DispatchEach(names: seq<string>): (r: Result<seq<string>, StvError>)
    requires forall i :: 0 <= i < |names| ==> Lower(names[i]) != "all"
    decreases 0, |names| + 1
  {
    if names == [] then Ok([])
    else
      match Dispatch(names[0])
      case Err(e) => Err(e)
      case Ok(first) =>
        match DispatchEach(names[1..])
        case Err(e) => Err(e)
        case Ok(rest) => Ok(first + rest)
  }

  lemma {:induction false} DispatchEachAvailable(names: seq<string>)
    requires forall i :: 0 <= i < |names| ==> Lower(names[i]) != "all" && Dispatch(names[i]) == Ok([names[i]])
    ensures DispatchEach(names) == Ok(names)
  {
    if names != [] {
      var first, rest := names[0], names[1..];
      DispatchEachAvailable(rest);
      DispatchEachStep(names, first, rest);
      assert [first] + rest == names;
    }
  }

  /** One step of the `map`: a name that runs itself, before a tail that runs itself. */
  lemma DispatchEachStep(names: seq<string>, first: string, rest: seq<string>)
    requires names != [] && first == names[0] && rest == names[1..]
    requires forall i :: 0 <= i < |names| ==> Lower(names[i]) != "all"
    requires Dispatch(first) == Ok([first]) && DispatchEach(rest) == Ok(rest)
    ensures DispatchEach(names) == Ok([first] + rest)
  {
  }

  /** An available name other than `all` runs just itself. */
  lemma DispatchAvailable(name: string)
    requires name in AvailableAlgorithms
    ensures Lower(name) != "all" && Dispatch(name) == Ok([name])
  {
    NoAlgorithmIsAll();
  }

  /**
   * The dispatcher succeeds iff the name is `all` in some case or an
   * available name; `all` runs every available algorithm once, in list
   * order, and an available name runs just itself. The check of membership
   * is case-sensitive.
   */
  lemma DispatchSpec(name: string)
    ensures Dispatch(name).Ok? <==> Lower(name) == "all" || name in AvailableAlgorithms
    ensures Lower(name) == "all" ==> Dispatch(name) == Ok(AvailableAlgorithms)
    ensures Lower(name) != "all" && name in AvailableAlgorithms ==> Dispatch(name) == Ok([name])
  {
    NoAlgorithmIsAll();
    forall i | 0 <= i < |AvailableAlgorithms|
      ensures Lower(AvailableAlgorithms[i]) != "all" && Dispatch(AvailableAlgorithms[i]) == Ok([AvailableAlgorithms[i]])
    {
      DispatchAvailable(AvailableAlgorithms[i]);
    }
    DispatchEachAvailable(AvailableAlgorithms);
  }

  /** `ALL` runs everything. */
  lemma DispatchUpperAll()
    ensures Dispatch("ALL") == Ok(AvailableAlgorithms)
  {
    DispatchSpec("ALL");
    assert Lower("ALL") == "all";
  }

  /** `Arduini` is refused: the membership test does not ignore case. */
  lemma DispatchCapitalised()
    ensures Dispatch("Arduini") == Err(IOError)
  {
    assert |Lower("Arduini")| == 7;
    assert "Arduini"[0] == 'A';
    assert forall i :: 0 <= i < |AvailableAlgorithms| ==> AvailableAlgorithms[i][0] != 'A';
  }

  /**
   * The result header (tools/analysingSTV.py:326-330): the four fixed
   * labels, then the `Subset_<i>` labels of the longest row with the last
   * three dropped.
   */
  function StvHeader<T>(longest: seq<T>): (r: seq<string>)
  {
    ["Filename", "Mean", "Median", "Std_Dev"] + Slice(GenerateHeader(longest, "Subset"), 0, -3)
  }

  /**
   * A longest row of a name, three statistics and `n` values gets exactly
   * one label per column: `Subset_1 … Subset_n` after the fixed four.
   */
  lemma StvHeaderFits<T>(longest: seq<T>)
    requires |longest| >= 4
    ensures |StvHeader(longest)| == |longest|
    ensures forall i :: 4 <= i < |longest| ==> StvHeader(longest)[i] == "Subset_" + NatToString(i - 3)
  {
  }
}
