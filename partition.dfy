// tools/partition.py: cutting a heart-rate record into blocks, by number of
// lines or by elapsed time, forward from the start or backward from the end.
//
// A record is the file's list of lines with blank lines removed, each line
// as the tokens `str.split()` gives. Written block files are returned as
// values instead of being written to disk.

module Partition {
  import opened Builtins
  import opened UtilityFunctions

  /** One record line, as the tokens of `line.split()`. */
  type Line = seq<string>

  /** Number of lines the sniffer looks at (`SAMPLE_SIZE`). */
  const SAMPLE_SIZE: nat := 42

  /** What the sniffer decides about the time column. */
  datatype Timing = Timing(cumulative: bool, stamp: real)

  /** A block as the half-open line window `[init, end)`, Python indices. */
  datatype Window = Window(init: int, end: int)

  /** The real time at the start and at the end of a block. */
  datatype Span = Span(start: real, end: real)

  /** A window the tiling tried to write, with the span it reports for it. */
  datatype Attempt = Attempt(window: Window, span: Span)

  /** Where a block is written: `<dest>/<name>` for a single cut, `<name>_blocks/<name>_<k>` otherwise. */
  datatype Target = Single | Numbered(k: nat)

  datatype BlockFile = BlockFile(target: Target, content: seq<Line>)

  /** Files written and the `p_times` list returned. */
  datatype Outcome = Outcome(files: seq<BlockFile>, times: seq<Span>)

  /**
   * IndexOutOfRange: an IndexError the source does not catch.
   * Diverges: the time tiling would repeat the same window forever.
   */
  datatype PartitionError = IndexOutOfRange | Diverges

  // ------------------------------------------------------------ line reading

  /** get_p_rtime can read the line: a two-column line needs a numeric first token, any other line counts 0. */
  predicate TimeReadable(line: Line)
  {
    |line| == 2 ==> ParseReal(line[0]).Some?
  }

  predicate AllTimeReadable(lines: seq<Line>)
  {
    forall i :: 0 <= i < |lines| ==> TimeReadable(lines[i])
  }

  /** The time get_p_rtime takes from a line. */
  function LineTime(line: Line): real
    requires TimeReadable(line)
  {
    if |line| == 2 then ParseReal(line[0]).value else 0.0
  }

  /** `time, hrf = line.split()` followed by `float(time)` succeeds. */
  predicate TwoColumn(line: Line)
  {
    |line| == 2 && ParseReal(line[0]).Some?
  }

  predicate AllTwoColumn(lines: seq<Line>)
  {
    forall i :: 0 <= i < |lines| ==> TwoColumn(lines[i])
  }

  function TimeOf(line: Line): real
    requires TwoColumn(line)
  {
    ParseReal(line[0]).value
  }

  lemma TwoColumnReadable(lines: seq<Line>)
    requires AllTwoColumn(lines)
    ensures AllTimeReadable(lines)
    ensures forall i :: 0 <= i < |lines| ==> LineTime(lines[i]) == TimeOf(lines[i])
  {
  }

  // ------------------------------------------------------------- real times

  /** The running time get_p_rtime computes: the fold of its loop over `lines`. */
  function RealTime(lines: seq<Line>, realS: real, cumulative: bool): real
    requires AllTimeReadable(lines)
    decreases |lines|
  {
    if lines == [] then realS
    else RealTime(lines[1..], if cumulative then LineTime(lines[0]) else realS + LineTime(lines[0]), cumulative)
  }

  lemma SliceReadable(lines: seq<Line>, i: int, j: int)
    requires AllTimeReadable(lines)
    ensures AllTimeReadable(Slice(lines, i, j))
  {
  }

  /** The sum of the times of `lines`. */
  function SumTimes(lines: seq<Line>): real
    requires AllTimeReadable(lines)
  {
    if lines == [] then 0.0 else LineTime(lines[0]) + SumTimes(lines[1..])
  }

  /** get_p_rtime (tools/partition.py:181-198). */
  method GetPRTime(lines: seq<Line>, realS: real, cumulative: bool) returns (r: real)
    requires AllTimeReadable(lines)
    ensures r == RealTime(lines, realS, cumulative)
  {
    r := realS;
    for i := 0 to |lines|
      invariant RealTime(lines[i..], r, cumulative) == RealTime(lines, realS, cumulative)
    {
      assert lines[i..][1..] == lines[i + 1..];
      if cumulative {
        r := LineTime(lines[i]);
      } else {
        r := r + LineTime(lines[i]);
      }
    }
    assert lines[|lines|..] == [];
  }

  /** With a cumulative time column the real time is the last line's time stamp, or `realS` for no lines. */
  lemma {:induction false} CumulativeRealTime(lines: seq<Line>, realS: real)
    requires AllTimeReadable(lines)
    ensures RealTime(lines, realS, true) == if lines == [] then realS else LineTime(lines[|lines| - 1])
    decreases |lines|
  {
    if |lines| > 1 {
      CumulativeRealTime(lines[1..], LineTime(lines[0]));
    }
  }

  /** With a periodic time column the real time is `realS` plus the sum of the intervals. */
  lemma {:induction false} PeriodicRealTime(lines: seq<Line>, realS: real)
    requires AllTimeReadable(lines)
    ensures RealTime(lines, realS, false) == realS + SumTimes(lines)
    decreases |lines|
  {
    if lines != [] {
      PeriodicRealTime(lines[1..], realS + LineTime(lines[0]));
    }
  }

  // ----------------------------------------------------------------- sniffer

  /** The sample sniffer reads: the first (or, from the end, the last) SAMPLE_SIZE lines. */
  function SampleOf(lines: seq<Line>, atEnd: bool): seq<Line>
  {
    if atEnd then Slice(lines, -(SAMPLE_SIZE as int), |lines|) else Slice(lines, 0, SAMPLE_SIZE)
  }

  /** sniffer does not raise: a first line, and every line two-column when the first has two or more tokens. */
  predicate SampleReadable(sample: seq<Line>)
  {
    |sample| > 0 && (|sample[0]| >= 2 ==> AllTwoColumn(sample))
  }

  /** How many lines of `sample` carry the time token `t`. */
  function Occurrences(sample: seq<Line>, t: string): nat
    requires AllTwoColumn(sample)
  {
    if sample == [] then 0
    else Occurrences(sample[..|sample| - 1], t) + (if sample[|sample| - 1][0] == t then 1 else 0)
  }

  /** The time token of some line of `sample` is at least as frequent as every other. */
  predicate MostFrequent(sample: seq<Line>, t: string)
    requires AllTwoColumn(sample)
  {
    forall j :: 0 <= j < |sample| ==> Occurrences(sample, sample[j][0]) <= Occurrences(sample, t)
  }

  /** The first `k` time stamps are strictly increasing. */
  predicate IncreasingUpTo(sample: seq<Line>, k: nat)
    requires AllTwoColumn(sample) && k <= |sample|
  {
    forall i, j :: 0 <= i < j < k ==> TimeOf(sample[i]) < TimeOf(sample[j])
  }

  /**
   * What sniffer may return for a sample: no time column gives (False, 0);
   * strictly increasing stamps give (True, first stamp), or the last stamp
   * from the end; otherwise (False, a most frequent stamp).
   */
  predicate Sniffed(sample: seq<Line>, atEnd: bool, timing: Timing)
    requires SampleReadable(sample)
  {
    if |sample[0]| < 2 then timing == Timing(false, 0.0)
    else if IncreasingUpTo(sample, |sample|) then
      timing == Timing(true, TimeOf(if atEnd then sample[|sample| - 1] else sample[0]))
    else
      !timing.cumulative
      && exists i :: 0 <= i < |sample| && MostFrequent(sample, sample[i][0]) && timing.stamp == TimeOf(sample[i])
  }

  lemma {:induction false} OccurrencesPrefix(sample: seq<Line>, k: nat, t: string)
    requires AllTwoColumn(sample) && k < |sample|
    ensures Occurrences(sample[..k + 1], t) == Occurrences(sample[..k], t) + (if sample[k][0] == t then 1 else 0)
  {
    assert sample[..k + 1][..k] == sample[..k];
  }

  lemma {:induction false} OccurrencesWitness(sample: seq<Line>, t: string)
    requires AllTwoColumn(sample)
    requires Occurrences(sample, t) > 0
    ensures exists i :: 0 <= i < |sample| && sample[i][0] == t
  {
    var n := |sample| - 1;
    if sample[n][0] != t {
      OccurrencesWitness(sample[..n], t);
      var i :| 0 <= i < n && sample[..n][i][0] == t;
      assert sample[i][0] == t;
    }
  }

  lemma {:induction false} OccurrencesOfMember(sample: seq<Line>, j: nat)
    requires AllTwoColumn(sample) && j < |sample|
    ensures Occurrences(sample, sample[j][0]) > 0
  {
    var n := |sample| - 1;
    if j < n {
      OccurrencesOfMember(sample[..n], j);
    }
  }

  lemma IncreasingExtends(sample: seq<Line>, k: nat, previous: real)
    requires AllTwoColumn(sample) && k < |sample|
    requires IncreasingUpTo(sample, k)
    requires forall i :: 0 <= i < k ==> TimeOf(sample[i]) <= previous
    requires previous < TimeOf(sample[k])
    ensures IncreasingUpTo(sample, k + 1)
  {
  }

  lemma IncreasingBreaks(sample: seq<Line>, k: nat, i: nat)
    requires AllTwoColumn(sample) && i < k < |sample|
    requires TimeOf(sample[i]) >= TimeOf(sample[k])
    ensures !IncreasingUpTo(sample, k + 1)
  {
  }

  lemma IncreasingStaysBroken(sample: seq<Line>, k: nat)
    requires AllTwoColumn(sample) && k < |sample|
    requires !IncreasingUpTo(sample, k)
    ensures !IncreasingUpTo(sample, k + 1)
  {
  }

  /** `times` counts the time tokens of `lines`: a key for each token met, with how often it occurs. */
  ghost predicate TallyOf(lines: seq<Line>, times: map<string, nat>)
    requires AllTwoColumn(lines)
  {
    (forall t :: t in times <==> Occurrences(lines, t) > 0)
    && (forall t :: t in times ==> times[t] == Occurrences(lines, t))
  }

  /**
   * The comparison state of the sniffer's loop after `k` lines: `previous`
   * is the largest time so far (that of line `at`), and `crescent` reaches
   * `k - 1` exactly when every time beat all those before it.
   */
  ghost predicate Scanned(sample: seq<Line>, k: nat, crescent: nat, previous: real, at: nat)
    requires 1 <= k <= |sample| && AllTwoColumn(sample)
  {
    at < k && previous == TimeOf(sample[at])
    && (forall i :: 0 <= i < k ==> TimeOf(sample[i]) <= previous)
    && crescent <= k - 1
    && (crescent == k - 1 ==> IncreasingUpTo(sample, k) && previous == TimeOf(sample[k - 1]))
    && (crescent < k - 1 ==> !IncreasingUpTo(sample, k))
  }

  /** Counts line `k`'s time token into the counts of the lines before it. */
  method Tally(sample: seq<Line>, k: nat, times: map<string, nat>) returns (counted: map<string, nat>)
    requires k < |sample| && AllTwoColumn(sample)
    requires TallyOf(sample[..k], times)
    ensures TallyOf(sample[..k + 1], counted)
  {
    var time := sample[k][0];
    forall t
      ensures Occurrences(sample[..k + 1], t) == Occurrences(sample[..k], t) + (if time == t then 1 else 0)
    {
      OccurrencesPrefix(sample, k, t);
    }
    if time in times {
      counted := times[time := times[time] + 1];
    } else {
      counted := times[time := 1];
    }
  }

  /** One comparison of the sniffer's loop: line `k` against the largest time seen so far. */
  method Compare(sample: seq<Line>, k: nat, crescent: nat, previous: real, ghost at: nat)
    returns (crescent': nat, previous': real, ghost at': nat)
    requires 1 <= k < |sample| && AllTwoColumn(sample)
    requires Scanned(sample, k, crescent, previous, at)
    ensures Scanned(sample, k + 1, crescent', previous', at')
    ensures TimeOf(sample[k]) > previous ==> crescent' == crescent + 1 && previous' == TimeOf(sample[k])
    ensures TimeOf(sample[k]) <= previous ==> crescent' == crescent && previous' == previous
  {
    if crescent < k - 1 {
      IncreasingStaysBroken(sample, k);
    }
    crescent', previous', at' := crescent, previous, at;
    if TimeOf(sample[k]) > previous {
      if crescent == k - 1 {
        IncreasingExtends(sample, k, previous);
      }
      crescent' := crescent + 1;
      previous' := TimeOf(sample[k]);
      at' := k;
    } else {
      IncreasingBreaks(sample, k, at);
    }
  }

  /** The counting loop of sniffer: how often each time token occurs, and whether every stamp beats all earlier ones. */
  method CountStamps(sample: seq<Line>) returns (times: map<string, nat>, increasing: bool)
    requires |sample| > 0 && AllTwoColumn(sample)
    ensures forall t :: t in times <==> Occurrences(sample, t) > 0
    ensures forall t :: t in times ==> times[t] == Occurrences(sample, t)
    ensures increasing <==> IncreasingUpTo(sample, |sample|)
  {
    var n := |sample|;
    // Line 0 is counted and compared with itself, which never counts as an increase.
    times := map[sample[0][0] := 1];
    var crescent: nat := 0;
    var previous := TimeOf(sample[0]);
    ghost var at: nat := 0;
    assert sample[..1][..0] == [];
    var k := 1;
    while k < n
      invariant 1 <= k <= n
      invariant TallyOf(sample[..k], times)
      invariant Scanned(sample, k, crescent, previous, at)
    {
      times := Tally(sample, k, times);
      crescent, previous, at := Compare(sample, k, crescent, previous, at);
      k := k + 1;
    }
    assert sample[..n] == sample;
    increasing := crescent == n - 1;
  }

  /** The mode loop of sniffer: the first key met with the largest count wins (strict `>`); the order is the dict's. */
  method ModalStamp(times: map<string, nat>) returns (moda: string)
    requires times != map[]
    requires forall t :: t in times ==> times[t] > 0
    ensures moda in times
    ensures forall t :: t in times ==> times[t] <= times[moda]
  {
    var keys := times.Keys;
    var modaCount := 0;
    moda :| moda in times;
    while keys != {}
      invariant keys <= times.Keys
      invariant forall t :: t in times && t !in keys ==> times[t] <= modaCount
      invariant modaCount > 0 ==> moda in times && times[moda] == modaCount
      invariant keys != times.Keys ==> modaCount > 0
      decreases |keys|
    {
      var t :| t in keys;
      if times[t] > modaCount {
        moda := t;
        modaCount := times[t];
      }
      keys := keys - {t};
    }
  }

  /** sniffer (tools/partition.py:391-434). */
  method Sniffer(sample: seq<Line>, atEnd: bool) returns (timing: Timing)
    requires SampleReadable(sample)
    ensures Sniffed(sample, atEnd, timing)
  {
    if |sample[0]| < 2 {
      return Timing(false, 0.0);
    }
    var n := |sample|;
    var firstStamp := if atEnd then sample[n - 1] else sample[0];
    var times, increasing := CountStamps(sample);
    if increasing {
      return Timing(true, TimeOf(firstStamp));
    }
    forall t | t in times
      ensures times[t] > 0
    {
    }
    OccurrencesOfMember(sample, 0);
    assert sample[0][0] in times;
    var moda := ModalStamp(times);
    OccurrencesWitness(sample, moda);
    var i :| 0 <= i < n && sample[i][0] == moda;
    forall j | 0 <= j < n
      ensures Occurrences(sample, sample[j][0]) <= Occurrences(sample, moda)
    {
      OccurrencesOfMember(sample, j);
    }
    timing := Timing(false, TimeOf(sample[i]));
  }

  // -------------------------------------------------------- line windows

  /** initial_indexes_lines (tools/partition.py:151-166); `total` is the index of the last line. */
  function InitialLines(start: real, section: real, atEnd: bool, total: int): Window
  {
    if atEnd then Window(Trunc(total as real - section), Trunc(total as real - start))
    else Window(Trunc(start), Trunc(section))
  }

  /** next_indexes_lines (tools/partition.py:169-178). */
  function NextLines(w: Window, gap: real): Window
  {
    Window(Trunc(w.init as real + gap), Trunc(w.end as real + gap))
  }

  /**
   * For whole-number arguments the first line window runs from the start to
   * `section` itself (not `start + section`); from the end it is the mirror
   * image, `[total - section, total - start)`. Either way it is
   * `section - start` lines wide.
   */
  lemma {:induction false} InitialLinesWindow(start: int, section: int, atEnd: bool, total: int)
    ensures var w := InitialLines(start as real, section as real, atEnd, total);
      && (!atEnd ==> w == Window(start, section))
      && (atEnd ==> w == Window(total - section, total - start))
      && w.end - w.init == section - start
  {
    TruncOfInteger(start);
    TruncOfInteger(section);
    TruncOfInteger(total - section);
    TruncOfInteger(total - start);
  }

  lemma {:induction false} TruncShift(n: int, gap: real)
    requires n as real + gap >= 0.0 && gap >= 0.0
    ensures Trunc(n as real + gap) == n + gap.Floor
  {
    assert (n as real + gap).Floor == n + gap.Floor;
  }

  /** With non-negative indices and gap, the next window is the old one moved by whole gap lines, so its width is unchanged. */
  lemma {:induction false} NextLinesShift(w: Window, gap: real)
    requires w.init >= 0 && w.end >= 0 && gap >= 0.0
    ensures NextLines(w, gap) == Window(w.init + gap.Floor, w.end + gap.Floor)
    ensures NextLines(w, gap).end - NextLines(w, gap).init == w.end - w.init
  {
    TruncShift(w.init, gap);
    TruncShift(w.end, gap);
  }

  /** A whole-number gap moves both ends by exactly `gap`, whatever their sign. */
  lemma {:induction false} NextLinesIntegralShift(w: Window, gap: int)
    ensures NextLines(w, gap as real) == Window(w.init + gap, w.end + gap)
  {
    TruncOfInteger(w.init + gap);
    TruncOfInteger(w.end + gap);
  }

  lemma {:induction false} TruncAtLeast(n: int, x: real)
    requires n as real <= x
    ensures n <= Trunc(x)
  {
  }

  // -------------------------------------------------------- time windows

  /**
   * test_time_limit (tools/partition.py:341-358): cumulative stamps test the
   * distance to the reference stamp against `desired` seconds, periodic
   * intervals test the elapsed milliseconds against `desired * 1000`.
   */
  predicate TestTimeLimit(cumulative: bool, time: real, stamp: real, elapsed: real, desired: real)
  {
    if cumulative then Abs(time - stamp) < desired else elapsed + stamp < desired * 1000.0
  }

  /** The elapsed time after one more line is read (periodic intervals add up; cumulative ones do not). */
  function Advance(timing: Timing, elapsed: real): real
  {
    if timing.cumulative then elapsed else elapsed + timing.stamp
  }

  /** `aux` walks forward from 0, or backward from -1 when anchored at the end. */
  predicate Heading(atEnd: bool, aux: int)
  {
    if atEnd then aux < 0 else aux >= 0
  }

  /**
   * The first loop of initial_indexes_time (tools/partition.py:304-319): walk
   * `aux` while the starting offset has not been reached. Reading past the
   * last line forward raises IndexError.
   */
  function ScanOffset(lines: seq<Line>, timing: Timing, desired: real, atEnd: bool, aux: int, elapsed: real)
    : (r: Result<(int, real), PartitionError>)
    requires AllTwoColumn(lines) && InBounds(|lines|, aux) && Heading(atEnd, aux)
    ensures r.Ok? ==> InBounds(|lines|, r.value.0) && Heading(atEnd, r.value.0)
    ensures r.Ok? && !atEnd ==> aux <= r.value.0
    ensures r.Ok? && atEnd ==> r.value.0 <= aux
    ensures r.Err? ==> !atEnd && r.error == IndexOutOfRange
    decreases |lines| - IAbs(aux)
  {
    if TestTimeLimit(timing.cumulative, TimeOf(At(lines, aux)), timing.stamp, elapsed, desired) && IAbs(aux) < |lines| then
      var next := if atEnd then aux - 1 else aux + 1;
      if !InBounds(|lines|, next) then Err(IndexOutOfRange)
      else ScanOffset(lines, timing, desired, atEnd, next, Advance(timing, elapsed))
    else Ok((aux, elapsed))
  }

  /**
   * The second loop of initial_indexes_time (tools/partition.py:321-336):
   * keep walking while offset plus section has not been reached, stopping
   * before `|aux|` reaches the number of lines; `edge` is the last index read.
   */
  function ScanSection(lines: seq<Line>, timing: Timing, desired: real, atEnd: bool, aux: int, elapsed: real, edge: int)
    : (r: int)
    requires AllTwoColumn(lines) && InBounds(|lines|, aux) && Heading(atEnd, aux)
    ensures r == edge || (!atEnd && aux < r < |lines|) || (atEnd && -|lines| < r < aux)
    decreases |lines| - IAbs(aux)
  {
    if TestTimeLimit(timing.cumulative, TimeOf(At(lines, aux)), timing.stamp, elapsed, desired) && IAbs(aux) < |lines| then
      var next := if atEnd then aux - 1 else aux + 1;
      if IAbs(next) >= |lines| then edge
      else ScanSection(lines, timing, desired, atEnd, next, Advance(timing, elapsed), next)
    else edge
  }

  /** The window initial_indexes_time returns (tools/partition.py:289-338). */
  function InitialTime(lines: seq<Line>, start: real, section: real, atEnd: bool, timing: Timing)
    : Result<Window, PartitionError>
    requires |lines| > 0 && AllTwoColumn(lines)
  {
    match ScanOffset(lines, timing, start, atEnd, if atEnd then -1 else 0, 0.0)
    case Err(e) => Err(e)
    case Ok((aux, elapsed)) =>
      var moved := ScanSection(lines, timing, start + section, atEnd, aux, elapsed, 0);
      if atEnd then Ok(Window(moved, aux)) else Ok(Window(aux, moved))
  }

  /**
   * Forward, the first time window starts at a real line and ends after it
   * (or stays at 0 when the section reaches no further line); from the end
   * both indices are negative, the end at a real line, or the start stays 0.
   * The only failure is running off the end while looking for the offset.
   */
  lemma {:induction false} InitialTimeBounds(lines: seq<Line>, start: real, section: real, atEnd: bool, timing: Timing)
    requires |lines| > 0 && AllTwoColumn(lines)
    ensures var r := InitialTime(lines, start, section, atEnd, timing);
      && (r.Err? ==> !atEnd && r.error == IndexOutOfRange)
      && (r.Ok? && !atEnd ==> 0 <= r.value.init < |lines| && (r.value.end == 0 || r.value.init < r.value.end < |lines|))
      && (r.Ok? && atEnd ==> -|lines| <= r.value.end < 0 && (r.value.init == 0 || -|lines| < r.value.init < r.value.end))
  {
  }

  /** Line `i` is the `(i + 1)`-th interval: have that many periodic intervals reached `desired` seconds? */
  predicate OffsetReachedAt(i: int, stamp: real, desired: real)
  {
    (i + 1) as real * stamp >= desired * 1000.0
  }

  /** In periodic mode the first loop stops at the first line `i` whose `(i + 1)` intervals reach the offset in milliseconds. */
  lemma {:induction false} PeriodicOffset(lines: seq<Line>, stamp: real, desired: real, aux: nat, elapsed: real)
    requires AllTwoColumn(lines) && aux < |lines|
    requires elapsed == aux as real * stamp
    ensures var r := ScanOffset(lines, Timing(false, stamp), desired, false, aux, elapsed);
      && (r.Ok? ==> var i := r.value.0;
            && OffsetReachedAt(i, stamp, desired)
            && forall j :: aux <= j < i ==> !OffsetReachedAt(j, stamp, desired))
      && (r.Err? <==> forall j :: aux <= j < |lines| ==> !OffsetReachedAt(j, stamp, desired))
    decreases |lines| - aux
  {
    var next := elapsed + stamp;
    assert next == (aux + 1) as real * stamp by {
      assert (aux + 1) as real * stamp == aux as real * stamp + stamp;
    }
    assert OffsetReachedAt(aux, stamp, desired) <==> !(next < desired * 1000.0);
    var r := ScanOffset(lines, Timing(false, stamp), desired, false, aux, elapsed);
    if !(next < desired * 1000.0) {
      assert r == Ok((aux, elapsed));
    } else if aux + 1 < |lines| {
      assert r == ScanOffset(lines, Timing(false, stamp), desired, false, aux + 1, next);
      PeriodicOffset(lines, stamp, desired, aux + 1, next);
    } else {
      assert r == Err(IndexOutOfRange);
    }
  }

  /** initial_indexes_time (tools/partition.py:289-338). */
  method InitialIndexesTime(lines: seq<Line>, start: real, section: real, atEnd: bool, timing: Timing)
    returns (r: Result<Window, PartitionError>)
    requires |lines| > 0 && AllTwoColumn(lines)
    ensures r == InitialTime(lines, start, section, atEnd, timing)
  {
    var pInit, pEnd := 0, 0;
    var aux := if atEnd then -1 else 0;
    var elapsed := 0.0;
    var time := TimeOf(At(lines, aux));
    ghost var first := ScanOffset(lines, timing, start, atEnd, aux, elapsed);
    while TestTimeLimit(timing.cumulative, time, timing.stamp, elapsed, start) && IAbs(aux) < |lines|
      invariant InBounds(|lines|, aux) && Heading(atEnd, aux)
      invariant time == TimeOf(At(lines, aux))
      invariant ScanOffset(lines, timing, start, atEnd, aux, elapsed) == first
      decreases |lines| - IAbs(aux)
    {
      aux := if atEnd then aux - 1 else aux + 1;
      if !InBounds(|lines|, aux) {
        return Err(IndexOutOfRange);
      }
      time := TimeOf(At(lines, aux));
      if !timing.cumulative {
        elapsed := elapsed + timing.stamp;
      }
    }
    if atEnd {
      pEnd := aux;
    } else {
      pInit := aux;
    }
    ghost var second := ScanSection(lines, timing, start + section, atEnd, aux, elapsed, 0);
    while TestTimeLimit(timing.cumulative, time, timing.stamp, elapsed, start + section) && IAbs(aux) < |lines|
      invariant InBounds(|lines|, aux) && Heading(atEnd, aux)
      invariant time == TimeOf(At(lines, aux))
      invariant ScanSection(lines, timing, start + section, atEnd, aux, elapsed, if atEnd then pInit else pEnd) == second
      invariant if atEnd then pEnd == first.value.0 else pInit == first.value.0
      decreases |lines| - IAbs(aux)
    {
      aux := if atEnd then aux - 1 else aux + 1;
      if IAbs(aux) >= |lines| {
        break;
      }
      time := TimeOf(At(lines, aux));
      if !timing.cumulative {
        elapsed := elapsed + timing.stamp;
      }
      if atEnd {
        pInit := aux;
      } else {
        pEnd := aux;
      }
    }
    r := Ok(Window(pInit, pEnd));
  }

  /**
   * The first loop of next_indexes_time (tools/partition.py:272-276): move the
   * start forward while less than `gap` has passed since the old start; a
   * read past the last line raises IndexError.
   */
  function AdvanceInit(lines: seq<Line>, timing: Timing, gap: real, pInit: int, elapsed: real)
    : (r: Result<(int, real), PartitionError>)
    requires AllTwoColumn(lines) && InBounds(|lines|, pInit)
    ensures r.Ok? ==> pInit <= r.value.0 < |lines|
    ensures r.Err? ==> r.error == IndexOutOfRange
    decreases |lines| - pInit
  {
    if TestTimeLimit(timing.cumulative, TimeOf(At(lines, pInit)), timing.stamp, elapsed, gap) then
      if pInit + 1 >= |lines| then Err(IndexOutOfRange)
      else AdvanceInit(lines, timing, gap, pInit + 1, Advance(timing, elapsed))
    else Ok((pInit, elapsed))
  }

  /**
   * The second loop of next_indexes_time (tools/partition.py:278-284): move the
   * end forward while less than `gap + section` has passed; it may stop at
   * `|lines|` but never beyond. `time` is the last time stamp read.
   */
  function AdvanceEnd(lines: seq<Line>, timing: Timing, limit: real, pEnd: int, time: real, elapsed: real): (r: int)
    requires AllTwoColumn(lines)
    ensures r >= pEnd
    ensures pEnd <= |lines| ==> r <= |lines|
    decreases |lines| - pEnd
  {
    if TestTimeLimit(timing.cumulative, time, timing.stamp, elapsed, limit) && IAbs(pEnd) < |lines| then
      if pEnd + 1 == |lines| then pEnd + 1
      else AdvanceEnd(lines, timing, limit, pEnd + 1, TimeOf(At(lines, pEnd + 1)), Advance(timing, elapsed))
    else pEnd
  }

  /** The window next_indexes_time returns (tools/partition.py:261-286). */
  function NextTime(lines: seq<Line>, w: Window, gap: real, section: real, timing: Timing)
    : (r: Result<Window, PartitionError>)
    requires AllTwoColumn(lines) && InBounds(|lines|, w.init)
    ensures r.Ok? ==> w.init <= r.value.init < |lines| && w.end <= r.value.end
    ensures r.Ok? && w.end <= |lines| ==> r.value.end <= |lines|
    ensures r.Err? ==> r.error == IndexOutOfRange
  {
    var t0 := TimeOf(At(lines, w.init));
    // A cumulative series measures from the time stamp at the old start.
    var tm := if timing.cumulative then Timing(true, t0) else timing;
    match AdvanceInit(lines, tm, gap, w.init, 0.0)
    case Err(e) => Err(e)
    case Ok((pInit, elapsed)) =>
      Ok(Window(pInit, AdvanceEnd(lines, tm, gap + section, w.end, TimeOf(At(lines, pInit)), elapsed)))
  }

  /** next_indexes_time (tools/partition.py:261-286). */
  method NextIndexesTime(lines: seq<Line>, w: Window, gap: real, section: real, timing: Timing)
    returns (r: Result<Window, PartitionError>)
    requires AllTwoColumn(lines) && InBounds(|lines|, w.init)
    ensures r == NextTime(lines, w, gap, section, timing)
  {
    var elapsed := 0.0;
    var pInit, pEnd := w.init, w.end;
    var time := TimeOf(At(lines, pInit));
    var stamp := if timing.cumulative then time else timing.stamp;
    var tm := Timing(timing.cumulative, stamp);
    ghost var first := AdvanceInit(lines, tm, gap, pInit, elapsed);
    while TestTimeLimit(timing.cumulative, time, stamp, elapsed, gap)
      invariant InBounds(|lines|, pInit)
      invariant time == TimeOf(At(lines, pInit))
      invariant AdvanceInit(lines, tm, gap, pInit, elapsed) == first
      decreases |lines| - pInit
    {
      pInit := pInit + 1;
      if pInit >= |lines| {
        return Err(IndexOutOfRange);
      }
      time := TimeOf(At(lines, pInit));
      if !timing.cumulative {
        elapsed := elapsed + stamp;
      }
    }
    ghost var second := AdvanceEnd(lines, tm, gap + section, pEnd, time, elapsed);
    while TestTimeLimit(timing.cumulative, time, stamp, elapsed, gap + section) && IAbs(pEnd) < |lines|
      invariant AdvanceEnd(lines, tm, gap + section, pEnd, time, elapsed) == second
      decreases |lines| - pEnd
    {
      pEnd := pEnd + 1;
      if pEnd == |lines| {
        break;
      }
      time := TimeOf(At(lines, pEnd));
      if !timing.cumulative {
        elapsed := elapsed + stamp;
      }
    }
    r := Ok(Window(pInit, pEnd));
  }

  // ------------------------------------------------------------------ writer

  /** The text written for a record line: its second column, or the whole stripped line when it is not two columns. */
  function Column(line: Line): Line
  {
    if |line| == 2 then [line[1]] else line
  }

  /** The lines write_partition writes for `[i, f)`, reading `lines[i]`, `lines[i + 1]`, … with Python indices. */
  function Rows(lines: seq<Line>, i: int, f: int): (r: seq<Line>)
    requires -|lines| <= i && f <= |lines|
    ensures |r| == if i < f then f - i else 0
    ensures forall k :: 0 <= k < |r| ==> r[k] == Column(At(lines, i + k))
    decreases f - i
  {
    if i >= f then [] else [Column(At(lines, i))] + Rows(lines, i + 1, f)
  }

  /**
   * The outcome of write_partition on window `w`: nothing for an empty or
   * inverted window, IndexError when it reaches outside the lines, the rows
   * otherwise.
   */
  function BlockContent(lines: seq<Line>, w: Window): Result<Option<seq<Line>>, PartitionError>
  {
    if w.init >= w.end then Ok(None)
    else if w.init < -|lines| || w.end > |lines| then Err(IndexOutOfRange)
    else Ok(Some(Rows(lines, w.init, w.end)))
  }

  /** write_partition (tools/partition.py:361-383). */
  method WritePartition(lines: seq<Line>, w: Window) returns (r: Result<Option<seq<Line>>, PartitionError>)
    ensures r == BlockContent(lines, w)
  {
    if w.init >= w.end {
      return Ok(None);
    }
    var out: seq<Line> := [];
    var i := w.init;
    while i < w.end
      invariant w.init <= i <= w.end
      invariant i > w.init ==> -|lines| <= w.init && i <= |lines|
      invariant |out| == i - w.init
      invariant forall k :: 0 <= k < |out| ==> out[k] == Column(At(lines, w.init + k))
      decreases w.end - i
    {
      if !InBounds(|lines|, i) {
        return Err(IndexOutOfRange);
      }
      out := out + [Column(At(lines, i))];
      i := i + 1;
    }
    assert out == Rows(lines, w.init, w.end);
    r := Ok(Some(out));
  }

  /** The time span of each attempt, in order. */
  function Spans(attempts: seq<Attempt>): seq<Span>
  {
    seq(|attempts|, i requires 0 <= i < |attempts| => attempts[i].span)
  }

  /** The files and spans of a sequence of attempts, the first numbered `k` (or a single unnumbered cut). */
  function WriteBlocks(lines: seq<Line>, attempts: seq<Attempt>, k: nat, single: bool): (r: Result<Outcome, PartitionError>)
    ensures r.Ok? ==> |r.value.times| == |attempts|
    ensures r.Ok? ==> r.value.times == Spans(attempts)
    decreases |attempts|
  {
    if attempts == [] then Ok(Outcome([], []))
    else
      match BlockContent(lines, attempts[0].window)
      case Err(e) => Err(e)
      case Ok(c) =>
        match WriteBlocks(lines, attempts[1..], k + 1, single)
        case Err(e) => Err(e)
        case Ok(o) =>
          var here := if c.Some? then [BlockFile(if single then Single else Numbered(k), c.value)] else [];
          Ok(Outcome(here + o.files, [attempts[0].span] + o.times))
  }

  // ----------------------------------------------------------------- tiling

  /** How a time tiling ends: the loop test failed, next_indexes_time raised IndexError, or it made no progress. */
  datatype Stop = Exhausted | Overran | Stalled

  datatype Run = Run(attempts: seq<Attempt>, stop: Stop)

  /**
   * The windows the time tiling loop attempts (tools/partition.py:232-252),
   * from attempt `a` on: while `init < end < |lines|` the window is written
   * and the next one computed; then the current window is attempted once more
   * as the trailing block. A window that does not move would be rewritten
   * forever (`Stalled`).
   */
  function TimeRun(lines: seq<Line>, a: Attempt, gap: real, section: real, timing: Timing): (r: Run)
    requires AllTwoColumn(lines) && a.window.init >= -|lines|
    ensures |r.attempts| > 0 && r.attempts[0] == a
    decreases 2 * |lines| - a.window.init - a.window.end
  {
    var w := a.window;
    if !(w.init < w.end < |lines|) then Run([a], Exhausted)
    else
      match TimeStep(lines, a, gap, section, timing)
      case Broke(t) => Run([a, t], Overran)
      case Stuck => Run([a], Stalled)
      case Moved(next) =>
        var rest := TimeRun(lines, next, gap, section, timing);
        Run([a] + rest.attempts, rest.stop)
  }

  /** The result of one pass of the time loop after the write: the next attempt, the break, or no progress. */
  datatype Step = Moved(next: Attempt) | Broke(trailing: Attempt) | Stuck

  /**
   * Lines 241-248 of tools/partition.py: the real time of the old end line
   * starts the new span; if next_indexes_time raises, the old window stays and
   * only the start time has moved.
   */
  function TimeStep(lines: seq<Line>, a: Attempt, gap: real, section: real, timing: Timing): (s: Step)
    requires AllTwoColumn(lines) && InBounds(|lines|, a.window.init)
    ensures s.Moved? ==> a.window.init <= s.next.window.init < |lines| && a.window.end <= s.next.window.end
                         && s.next.window != a.window
    ensures s.Moved? && a.window.end <= |lines| ==> s.next.window.end <= |lines|
    ensures s.Broke? ==> s.trailing.window == a.window
  {
    var w := a.window;
    TwoColumnReadable(lines);
    SliceReadable(lines, w.end, w.end + 1);
    var rs := RealTime(Slice(lines, w.end, w.end + 1), a.span.end, timing.cumulative);
    match NextTime(lines, w, gap, section, timing)
    case Err(_) => Broke(Attempt(w, Span(rs, a.span.end)))
    case Ok(next) =>
      if next == w then Stuck
      else
        SliceReadable(lines, next.init, next.end);
        Moved(Attempt(next, Span(rs, RealTime(Slice(lines, next.init, next.end), rs, timing.cumulative))))
  }

  /**
   * The windows the line tiling loop attempts (tools/partition.py:128-143):
   * while `end < |lines|` the window is written and moved by `gap`; then the
   * trailing block `[init, |lines|)` is attempted.
   */
  function LineRun(lines: seq<Line>, a: Attempt, gap: real, cumulative: bool): (r: seq<Attempt>)
    requires AllTimeReadable(lines) && gap >= 1.0
    ensures |r| > 0
    ensures r[|r| - 1].window.end == |lines|
    decreases |lines| - a.window.end
  {
    if a.window.end >= |lines| then [Attempt(Window(a.window.init, |lines|), a.span)]
    else [a] + LineRun(lines, NextLineAttempt(lines, a, gap, cumulative), gap, cumulative)
  }

  /** One step of the line loop: the real time of the old end line starts the new span, and the window moves by `gap`. */
  function NextLineAttempt(lines: seq<Line>, a: Attempt, gap: real, cumulative: bool): (r: Attempt)
    requires AllTimeReadable(lines) && gap >= 1.0
    ensures r.window.end > a.window.end
  {
    var rs := RealTime(Slice(lines, a.window.end, a.window.end + 1), a.span.end, cumulative);
    var next := NextLines(a.window, gap);
    TruncAtLeast(a.window.end + 1, a.window.end as real + gap);
    Attempt(next, Span(rs, RealTime(Slice(lines, next.init, next.end), rs, cumulative)))
  }

  /** The first attempt: the first window with the real time up to its start line and up to its end. */
  function FirstAttempt(lines: seq<Line>, w: Window, cumulative: bool): Attempt
    requires AllTimeReadable(lines)
  {
    var rs := RealTime(Slice(lines, 0, w.init + 1), 0.0, cumulative);
    Attempt(w, Span(rs, RealTime(Slice(lines, w.init, w.end), rs, cumulative)))
  }

  /** What partition_by_lines (tools/partition.py:101-148) writes and returns, given the sniffer's verdict. */
  function LineBlocks(lines: seq<Line>, start: real, section: real, gap: real, atEnd: bool, fullFile: bool, timing: Timing)
    : Result<Outcome, PartitionError>
    requires AllTimeReadable(lines) && (fullFile ==> gap >= 1.0)
  {
    if |lines| == 0 then Err(IndexOutOfRange)
    else
      var a := FirstAttempt(lines, InitialLines(start, section, atEnd, |lines| - 1), timing.cumulative);
      if fullFile then WriteBlocks(lines, LineRun(lines, a, gap, timing.cumulative), 1, false)
      else WriteBlocks(lines, [a], 0, true)
  }

  /** Writing a run's attempts; a stalled run never returns. */
  function Finish(lines: seq<Line>, run: Run, k: nat): Result<Outcome, PartitionError>
  {
    match WriteBlocks(lines, run.attempts, k, false)
    case Err(e) => Err(e)
    case Ok(o) => if run.stop == Stalled then Err(Diverges) else Ok(o)
  }

  /** What partition_by_time (tools/partition.py:201-258) writes and returns, given the sniffer's verdict. */
  function TimeBlocks(lines: seq<Line>, start: real, section: real, gap: real, atEnd: bool, fullFile: bool, timing: Timing)
    : Result<Outcome, PartitionError>
    requires AllTwoColumn(lines)
  {
    if |lines| == 0 then Ok(Outcome([], []))
    else
      match InitialTime(lines, start, section, atEnd, timing)
      case Err(e) => Err(e)
      case Ok(w) =>
        InitialTimeBounds(lines, start, section, atEnd, timing);
        TwoColumnReadable(lines);
        var a := FirstAttempt(lines, w, timing.cumulative);
        if fullFile then Finish(lines, TimeRun(lines, a, gap, section, timing), 1)
        else WriteBlocks(lines, [a], 0, true)
  }

  /** Prefixes already written files and spans to the outcome of the rest of a tiling. */
  function Glue(files: seq<BlockFile>, times: seq<Span>, rest: Result<Outcome, PartitionError>): Result<Outcome, PartitionError>
  {
    match rest
    case Err(e) => Err(e)
    case Ok(o) => Ok(Outcome(files + o.files, times + o.times))
  }

  /** The files a write of one block adds. */
  function Written(target: Target, c: Option<seq<Line>>): seq<BlockFile>
  {
    if c.Some? then [BlockFile(target, c.value)] else []
  }

  lemma {:induction false} WriteBlocksStep(lines: seq<Line>, a: Attempt, rest: seq<Attempt>, k: nat, files: seq<BlockFile>, times: seq<Span>)
    ensures var c := BlockContent(lines, a.window);
      Glue(files, times, WriteBlocks(lines, [a] + rest, k, false))
      == if c.Err? then Err(c.error)
         else Glue(files + Written(Numbered(k), c.value), times + [a.span], WriteBlocks(lines, rest, k + 1, false))
  {
    assert ([a] + rest)[0] == a;
    assert ([a] + rest)[1..] == rest;
    var c := BlockContent(lines, a.window);
    if c.Ok? {
      match WriteBlocks(lines, rest, k + 1, false)
      case Err(e) =>
      case Ok(o) =>
        assert files + (Written(Numbered(k), c.value) + o.files) == files + Written(Numbered(k), c.value) + o.files;
        assert times + ([a.span] + o.times) == times + [a.span] + o.times;
    }
  }

  lemma GlueEmpty(x: Result<Outcome, PartitionError>)
    ensures Glue([], [], x) == x
  {
    if x.Ok? {
      assert [] + x.value.files == x.value.files;
      assert [] + x.value.times == x.value.times;
    }
  }

  lemma WriteSingle(lines: seq<Line>, a: Attempt)
    ensures var c := BlockContent(lines, a.window);
      WriteBlocks(lines, [a], 0, true) == if c.Err? then Err(c.error) else Ok(Outcome(Written(Single, c.value), [a.span]))
  {
    assert [a][1..] == [];
    var c := BlockContent(lines, a.window);
    if c.Ok? {
      assert Written(Single, c.value) + [] == Written(Single, c.value);
      assert [a.span] + [] == [a.span];
    }
  }

  lemma WriteBlocksLast(lines: seq<Line>, a: Attempt, k: nat, files: seq<BlockFile>, times: seq<Span>)
    ensures var c := BlockContent(lines, a.window);
      Glue(files, times, WriteBlocks(lines, [a], k, false))
      == if c.Err? then Err(c.error) else Ok(Outcome(files + Written(Numbered(k), c.value), times + [a.span]))
  {
    assert [a][1..] == [];
    var c := BlockContent(lines, a.window);
    if c.Ok? {
      assert Written(Numbered(k), c.value) + [] == Written(Numbered(k), c.value);
      assert [a.span] + [] == [a.span];
    }
  }

  /** A record the line tiling can read: every line's time parses, and so does the sniffer's sample. */
  predicate LineModeInput(lines: seq<Line>, atEnd: bool)
  {
    AllTimeReadable(lines) && (|lines| > 0 ==> SampleReadable(SampleOf(lines, atEnd)))
  }

  lemma LineLoopStep(lines: seq<Line>, a: Attempt, gap: real, cumulative: bool, k: nat, files: seq<BlockFile>, times: seq<Span>)
    requires AllTimeReadable(lines) && gap >= 1.0 && a.window.end < |lines|
    ensures var c := BlockContent(lines, a.window);
      Glue(files, times, WriteBlocks(lines, LineRun(lines, a, gap, cumulative), k, false))
      == if c.Err? then Err(c.error)
         else Glue(files + Written(Numbered(k), c.value), times + [a.span],
                   WriteBlocks(lines, LineRun(lines, NextLineAttempt(lines, a, gap, cumulative), gap, cumulative), k + 1, false))
  {
    var rest := LineRun(lines, NextLineAttempt(lines, a, gap, cumulative), gap, cumulative);
    assert LineRun(lines, a, gap, cumulative) == [a] + rest;
    WriteBlocksStep(lines, a, rest, k, files, times);
  }

  /** Lines 133-140 of tools/partition.py: the next line window and its span. */
  method StepLines(lines: seq<Line>, a: Attempt, gap: real, cumulative: bool) returns (next: Attempt)
    requires AllTimeReadable(lines) && gap >= 1.0
    ensures next == NextLineAttempt(lines, a, gap, cumulative)
  {
    SliceReadable(lines, a.window.end, a.window.end + 1);
    var rs := GetPRTime(Slice(lines, a.window.end, a.window.end + 1), a.span.end, cumulative);
    var w := NextLines(a.window, gap);
    SliceReadable(lines, w.init, w.end);
    var re := GetPRTime(Slice(lines, w.init, w.end), rs, cumulative);
    next := Attempt(w, Span(rs, re));
  }

  /** The full-file loop of partition_by_lines (tools/partition.py:122-143), from the first attempt on. */
  method TileByLines(lines: seq<Line>, first: Attempt, gap: real, cumulative: bool) returns (r: Result<Outcome, PartitionError>)
    requires AllTimeReadable(lines) && gap >= 1.0
    ensures r == WriteBlocks(lines, LineRun(lines, first, gap, cumulative), 1, false)
  {
    var a := first;
    var k := 1;
    var files: seq<BlockFile> := [];
    var times: seq<Span> := [];
    GlueEmpty(WriteBlocks(lines, LineRun(lines, first, gap, cumulative), 1, false));
    while a.window.end < |lines|
      invariant k >= 1
      invariant Glue(files, times, WriteBlocks(lines, LineRun(lines, a, gap, cumulative), k, false))
             == WriteBlocks(lines, LineRun(lines, first, gap, cumulative), 1, false)
      decreases |lines| - a.window.end
    {
      var c := WritePartition(lines, a.window);
      LineLoopStep(lines, a, gap, cumulative, k, files, times);
      if c.Err? {
        return Err(c.error);
      }
      files := files + Written(Numbered(k), c.value);
      times := times + [a.span];
      k := k + 1;
      a := StepLines(lines, a, gap, cumulative);
    }
    // The trailing block runs to the last line.
    var last := Attempt(Window(a.window.init, |lines|), a.span);
    var c := WritePartition(lines, last.window);
    WriteBlocksLast(lines, last, k, files, times);
    if c.Err? {
      return Err(c.error);
    }
    r := Ok(Outcome(files + Written(Numbered(k), c.value), times + [last.span]));
  }

  /** The real times of the first window: up to its start line, then up to its end. */
  method FirstSpan(lines: seq<Line>, w: Window, cumulative: bool) returns (a: Attempt)
    requires AllTimeReadable(lines)
    ensures a == FirstAttempt(lines, w, cumulative)
  {
    var rs := GetPRTime(Slice(lines, 0, w.init + 1), 0.0, cumulative);
    var re := GetPRTime(Slice(lines, w.init, w.end), rs, cumulative);
    a := Attempt(w, Span(rs, re));
  }

  /** The block of a single cut (full_file off): one file named without a number. */
  method WriteSingleBlock(lines: seq<Line>, a: Attempt) returns (r: Result<Outcome, PartitionError>)
    ensures r == WriteBlocks(lines, [a], 0, true)
  {
    WriteSingle(lines, a);
    var c := WritePartition(lines, a.window);
    if c.Err? {
      return Err(c.error);
    }
    r := Ok(Outcome(Written(Single, c.value), [a.span]));
  }

  /** partition_by_lines (tools/partition.py:101-148); `timing` is the sniffer's verdict. */
  method PartitionByLines(lines: seq<Line>, start: real, section: real, gap: real, atEnd: bool, fullFile: bool)
    returns (timing: Timing, r: Result<Outcome, PartitionError>)
    requires LineModeInput(lines, atEnd) && (fullFile ==> gap >= 1.0)
    ensures |lines| > 0 ==> Sniffed(SampleOf(lines, atEnd), atEnd, timing)
    ensures r == LineBlocks(lines, start, section, gap, atEnd, fullFile, timing)
  {
    if |lines| == 0 {
      // sniffer reads the first line of an empty sample.
      return Timing(false, 0.0), Err(IndexOutOfRange);
    }
    timing := Sniffer(SampleOf(lines, atEnd), atEnd);
    var a := FirstSpan(lines, InitialLines(start, section, atEnd, |lines| - 1), timing.cumulative);
    if fullFile {
      r := TileByLines(lines, a, gap, timing.cumulative);
    } else {
      r := WriteSingleBlock(lines, a);
    }
  }

  /** Lines 241-248 of tools/partition.py as one step. */
  method StepTime(lines: seq<Line>, a: Attempt, gap: real, section: real, timing: Timing) returns (s: Step)
    requires AllTwoColumn(lines) && InBounds(|lines|, a.window.init)
    ensures s == TimeStep(lines, a, gap, section, timing)
  {
    TwoColumnReadable(lines);
    SliceReadable(lines, a.window.end, a.window.end + 1);
    var rs := GetPRTime(Slice(lines, a.window.end, a.window.end + 1), a.span.end, timing.cumulative);
    var next := NextIndexesTime(lines, a.window, gap, section, timing);
    if next.Err? {
      return Broke(Attempt(a.window, Span(rs, a.span.end)));
    }
    if next.value == a.window {
      // The source would run this loop forever.
      return Stuck;
    }
    var w := next.value;
    SliceReadable(lines, w.init, w.end);
    var re := GetPRTime(Slice(lines, w.init, w.end), rs, timing.cumulative);
    s := Moved(Attempt(w, Span(rs, re)));
  }

  /** The run after the first attempt of a looping time tiling. */
  function RestRun(lines: seq<Line>, a: Attempt, gap: real, section: real, timing: Timing): Run
    requires AllTwoColumn(lines) && InBounds(|lines|, a.window.init)
  {
    match TimeStep(lines, a, gap, section, timing)
    case Broke(t) => Run([t], Overran)
    case Stuck => Run([], Stalled)
    case Moved(next) => TimeRun(lines, next, gap, section, timing)
  }

  lemma FinishStep(lines: seq<Line>, a: Attempt, rest: Run, k: nat, files: seq<BlockFile>, times: seq<Span>)
    ensures var c := BlockContent(lines, a.window);
      Glue(files, times, Finish(lines, Run([a] + rest.attempts, rest.stop), k))
      == if c.Err? then Err(c.error)
         else Glue(files + Written(Numbered(k), c.value), times + [a.span], Finish(lines, rest, k + 1))
  {
    assert ([a] + rest.attempts)[0] == a;
    assert ([a] + rest.attempts)[1..] == rest.attempts;
    var c := BlockContent(lines, a.window);
    if c.Ok? {
      match WriteBlocks(lines, rest.attempts, k + 1, false)
      case Err(e) =>
      case Ok(o) =>
        assert files + (Written(Numbered(k), c.value) + o.files) == files + Written(Numbered(k), c.value) + o.files;
        assert times + ([a.span] + o.times) == times + [a.span] + o.times;
    }
  }

  lemma TimeLoopStep(lines: seq<Line>, a: Attempt, gap: real, section: real, timing: Timing,
                     k: nat, files: seq<BlockFile>, times: seq<Span>)
    requires AllTwoColumn(lines) && -|lines| <= a.window.init < a.window.end < |lines|
    ensures var c := BlockContent(lines, a.window);
      Glue(files, times, Finish(lines, TimeRun(lines, a, gap, section, timing), k))
      == if c.Err? then Err(c.error)
         else Glue(files + Written(Numbered(k), c.value), times + [a.span],
                   Finish(lines, RestRun(lines, a, gap, section, timing), k + 1))
  {
    var rest := RestRun(lines, a, gap, section, timing);
    assert TimeRun(lines, a, gap, section, timing) == Run([a] + rest.attempts, rest.stop) by {
      match TimeStep(lines, a, gap, section, timing)
      case Broke(t) => assert [a] + [t] == [a, t];
      case Stuck => assert [a] + [] == [a];
      case Moved(next) =>
    }
    FinishStep(lines, a, rest, k, files, times);
  }

  /** The full-file loop of partition_by_time (tools/partition.py:226-252), from the first attempt on. */
  method TileByTime(lines: seq<Line>, first: Attempt, gap: real, section: real, timing: Timing)
    returns (r: Result<Outcome, PartitionError>)
    requires AllTwoColumn(lines) && first.window.init >= -|lines|
    ensures r == Finish(lines, TimeRun(lines, first, gap, section, timing), 1)
  {
    var a := first;
    var k := 1;
    var files: seq<BlockFile> := [];
    var times: seq<Span> := [];
    ghost var total := Finish(lines, TimeRun(lines, first, gap, section, timing), 1);
    GlueEmpty(total);
    while a.window.init < a.window.end < |lines|
      invariant k >= 1 && a.window.init >= -|lines|
      invariant Glue(files, times, Finish(lines, TimeRun(lines, a, gap, section, timing), k)) == total
      decreases 2 * |lines| - a.window.init - a.window.end
    {
      var c := WritePartition(lines, a.window);
      TimeLoopStep(lines, a, gap, section, timing, k, files, times);
      // Inside the loop the window lies within the lines, so the write cannot raise.
      assert c.Ok?;
      files := files + Written(Numbered(k), c.value);
      times := times + [a.span];
      k := k + 1;
      var s := StepTime(lines, a, gap, section, timing);
      if s.Stuck? {
        return Err(Diverges);
      }
      if s.Broke? {
        a := s.trailing;
        assert Glue(files, times, WriteBlocks(lines, [a], k, false)) == total;
        break;
      }
      a := s.next;
    }
    assert Glue(files, times, WriteBlocks(lines, [a], k, false)) == total;
    // The trailing block reuses the current window.
    var c := WritePartition(lines, a.window);
    WriteBlocksLast(lines, a, k, files, times);
    if c.Err? {
      return Err(c.error);
    }
    r := Ok(Outcome(files + Written(Numbered(k), c.value), times + [a.span]));
  }

  lemma SampleTwoColumn(lines: seq<Line>, atEnd: bool)
    requires AllTwoColumn(lines) && |lines| > 0
    ensures SampleReadable(SampleOf(lines, atEnd))
  {
  }

  /** partition_by_time (tools/partition.py:201-258); `timing` is the sniffer's verdict. */
  method PartitionByTime(lines: seq<Line>, start: real, section: real, gap: real, atEnd: bool, fullFile: bool)
    returns (timing: Timing, r: Result<Outcome, PartitionError>)
    requires AllTwoColumn(lines)
    ensures |lines| > 0 ==> Sniffed(SampleOf(lines, atEnd), atEnd, timing)
    ensures r == TimeBlocks(lines, start, section, gap, atEnd, fullFile, timing)
  {
    if |lines| == 0 {
      return Timing(false, 0.0), Ok(Outcome([], []));
    }
    SampleTwoColumn(lines, atEnd);
    timing := Sniffer(SampleOf(lines, atEnd), atEnd);
    var initial := InitialIndexesTime(lines, start, section, atEnd, timing);
    if initial.Err? {
      return timing, Err(initial.error);
    }
    InitialTimeBounds(lines, start, section, atEnd, timing);
    TwoColumnReadable(lines);
    var a := FirstSpan(lines, initial.value, timing.cumulative);
    if fullFile {
      r := TileByTime(lines, a, gap, section, timing);
    } else {
      r := WriteSingleBlock(lines, a);
    }
  }

  // ------------------------------------------------------- tiling properties

  /** A line tiling with more than one block made a pass of the loop: the attempt, then the tiling from the next one. */
  lemma LineRunUnfold(lines: seq<Line>, a: Attempt, gap: real, cumulative: bool)
    requires AllTimeReadable(lines) && gap >= 1.0 && |LineRun(lines, a, gap, cumulative)| > 1
    ensures a.window.end < |lines|
    ensures LineRun(lines, a, gap, cumulative) == [a] + LineRun(lines, NextLineAttempt(lines, a, gap, cumulative), gap, cumulative)
  {
  }

  /** With a whole-number gap, one pass of the line loop moves both ends of the window by `gap`. */
  lemma NextLineAttemptShift(lines: seq<Line>, a: Attempt, gap: int, cumulative: bool)
    requires AllTimeReadable(lines) && gap >= 1
    ensures NextLineAttempt(lines, a, gap as real, cumulative).window == Window(a.window.init + gap, a.window.end + gap)
  {
    NextLinesIntegralShift(a.window, gap);
  }

  /** The windows of a line tiling alone, without their spans: the same loop over a record of `total` lines. */
  function LineWindows(total: int, w: Window, gap: real): (r: seq<Window>)
    requires gap >= 1.0
    ensures |r| > 0 && r[|r| - 1].end == total
    decreases total - w.end
  {
    if w.end >= total then [Window(w.init, total)]
    else
      TruncAtLeast(w.end + 1, w.end as real + gap);
      [w] + LineWindows(total, NextLines(w, gap), gap)
  }

  /** The windows of a line tiling are those of `LineWindows`. */
  lemma {:induction false} LineRunWindows(lines: seq<Line>, a: Attempt, gap: real, cumulative: bool, i: nat)
    requires AllTimeReadable(lines) && gap >= 1.0
    ensures |LineRun(lines, a, gap, cumulative)| == |LineWindows(|lines|, a.window, gap)|
    ensures i < |LineRun(lines, a, gap, cumulative)| ==>
      LineRun(lines, a, gap, cumulative)[i].window == LineWindows(|lines|, a.window, gap)[i]
    decreases |lines| - a.window.end
  {
    if a.window.end < |lines| {
      var next := NextLineAttempt(lines, a, gap, cumulative);
      var ws := LineWindows(|lines|, next.window, gap);
      LineRunUnfold(lines, a, gap, cumulative);
      assert LineWindows(|lines|, a.window, gap) == [a.window] + ws by {
        NextLineAttemptWindow(lines, a, gap, cumulative);
      }
      LineRunWindows(lines, next, gap, cumulative, if i > 0 then i - 1 else 0);
    }
  }

  lemma NextLineAttemptWindow(lines: seq<Line>, a: Attempt, gap: real, cumulative: bool)
    requires AllTimeReadable(lines) && gap >= 1.0
    ensures NextLineAttempt(lines, a, gap, cumulative).window == NextLines(a.window, gap)
  {
  }

  /** Every window but the trailing one ends inside the record, and the first is the window the loop started from. */
  lemma {:induction false} WindowsInside(total: int, w: Window, gap: real, i: nat)
    requires gap >= 1.0
    ensures LineWindows(total, w, gap)[0].init == w.init
    ensures i < |LineWindows(total, w, gap)| - 1 ==> LineWindows(total, w, gap)[i].end < total
    decreases i
  {
    if w.end < total && i > 0 {
      TruncAtLeast(w.end + 1, w.end as real + gap);
      WindowsInside(total, NextLines(w, gap), gap, i - 1);
    }
  }

  /** With a whole-number gap each window starts `gap` lines after the one before; unless it is the trailing one it also ends `gap` lines later. */
  lemma {:induction false} WindowsShift(total: int, w: Window, gap: int, i: nat)
    requires gap >= 1
    requires i < |LineWindows(total, w, gap as real)| - 1
    ensures var ws := LineWindows(total, w, gap as real);
      && ws[i + 1].init == ws[i].init + gap
      && (i + 1 < |ws| - 1 ==> ws[i + 1].end == ws[i].end + gap)
    decreases i
  {
    var next := NextLines(w, gap as real);
    NextLinesIntegralShift(w, gap);
    if i == 0 {
      WindowsInside(total, next, gap as real, 0);
    } else {
      WindowsShift(total, next, gap, i - 1);
    }
  }

  /** With a whole-number gap every window but the trailing one is as wide as the first. */
  lemma {:induction false} WindowsWidth(total: int, w: Window, gap: int, i: nat)
    requires gap >= 1
    requires i < |LineWindows(total, w, gap as real)| - 1
    ensures var v := LineWindows(total, w, gap as real)[i];
      v.end - v.init == w.end - w.init
    decreases i
  {
    if i > 0 {
      NextLinesIntegralShift(w, gap);
      WindowsWidth(total, NextLines(w, gap as real), gap, i - 1);
    }
  }

  /** Block `i` of a line tiling, other than the trailing one, ends inside the record; the first is the first attempt. */
  lemma LineRunInside(lines: seq<Line>, a: Attempt, gap: real, cumulative: bool, i: nat)
    requires AllTimeReadable(lines) && gap >= 1.0
    requires i < |LineRun(lines, a, gap, cumulative)| - 1
    ensures LineRun(lines, a, gap, cumulative)[i].window.end < |lines|
    ensures LineRun(lines, a, gap, cumulative)[0] == a
  {
    LineRunUnfold(lines, a, gap, cumulative);
    LineRunWindows(lines, a, gap, cumulative, i);
    WindowsInside(|lines|, a.window, gap, i);
  }

  /** With a whole-number gap, block `i + 1` of a line tiling starts `gap` lines after block `i`, and ends `gap` lines later unless it is the trailing block. */
  lemma LineRunShift(lines: seq<Line>, a: Attempt, gap: int, cumulative: bool, i: nat)
    requires AllTimeReadable(lines) && gap >= 1
    requires i < |LineRun(lines, a, gap as real, cumulative)| - 1
    ensures var run := LineRun(lines, a, gap as real, cumulative);
      && run[i + 1].window.init == run[i].window.init + gap
      && (i + 1 < |run| - 1 ==> run[i + 1].window.end == run[i].window.end + gap)
  {
    LineRunWindows(lines, a, gap as real, cumulative, i);
    LineRunWindows(lines, a, gap as real, cumulative, i + 1);
    WindowsShift(|lines|, a.window, gap, i);
  }

  /** With a whole-number gap every block of a line tiling but the trailing one has the first block's width. */
  lemma LineRunWidth(lines: seq<Line>, a: Attempt, gap: int, cumulative: bool, i: nat)
    requires AllTimeReadable(lines) && gap >= 1
    requires i < |LineRun(lines, a, gap as real, cumulative)| - 1
    ensures var w := LineRun(lines, a, gap as real, cumulative)[i].window;
      w.end - w.init == a.window.end - a.window.init
  {
    LineRunWindows(lines, a, gap as real, cumulative, i);
    WindowsWidth(|lines|, a.window, gap, i);
  }

  /** One pass of the time loop that moved on: the attempt, then the tiling from the next one. */
  lemma TimeRunUnfold(lines: seq<Line>, a: Attempt, gap: real, section: real, timing: Timing)
    requires AllTwoColumn(lines) && a.window.init >= -|lines|
    requires a.window.init < a.window.end < |lines| && TimeStep(lines, a, gap, section, timing).Moved?
    ensures var next := TimeStep(lines, a, gap, section, timing).next;
      TimeRun(lines, a, gap, section, timing) == Run([a] + TimeRun(lines, next, gap, section, timing).attempts,
                                                     TimeRun(lines, next, gap, section, timing).stop)
  {
  }

  /** Window `i` of a time tiling stays within `[-|lines|, |lines|]`. */
  lemma {:induction false} TimeRunInside(lines: seq<Line>, a: Attempt, gap: real, section: real, timing: Timing, i: nat)
    requires AllTwoColumn(lines) && -|lines| <= a.window.init && a.window.end <= |lines|
    requires i < |TimeRun(lines, a, gap, section, timing).attempts|
    ensures var w := TimeRun(lines, a, gap, section, timing).attempts[i].window;
      -|lines| <= w.init && w.end <= |lines|
    decreases i
  {
    var w := a.window;
    if i > 0 {
      var s := TimeStep(lines, a, gap, section, timing);
      if s.Moved? {
        TimeRunUnfold(lines, a, gap, section, timing);
        TimeRunInside(lines, s.next, gap, section, timing, i - 1);
      }
    }
  }

  /** Every window of a time tiling but the last passed the loop test `init < end < len(lines)`. */
  lemma {:induction false} TimeRunProper(lines: seq<Line>, a: Attempt, gap: real, section: real, timing: Timing, i: nat)
    requires AllTwoColumn(lines) && -|lines| <= a.window.init
    requires i < |TimeRun(lines, a, gap, section, timing).attempts| - 1
    ensures var w := TimeRun(lines, a, gap, section, timing).attempts[i].window;
      w.init < w.end < |lines|
    decreases i
  {
    var s := TimeStep(lines, a, gap, section, timing);
    if i > 0 && s.Moved? {
      TimeRunUnfold(lines, a, gap, section, timing);
      TimeRunProper(lines, s.next, gap, section, timing, i - 1);
    }
  }

  /** Time windows never move back: both ends of window `i + 1` are at or after those of window `i`. */
  lemma {:induction false} TimeRunMonotone(lines: seq<Line>, a: Attempt, gap: real, section: real, timing: Timing, i: nat)
    requires AllTwoColumn(lines) && -|lines| <= a.window.init
    requires i < |TimeRun(lines, a, gap, section, timing).attempts| - 1
    ensures var run := TimeRun(lines, a, gap, section, timing).attempts;
      run[i].window.init <= run[i + 1].window.init && run[i].window.end <= run[i + 1].window.end
    decreases i
  {
    var s := TimeStep(lines, a, gap, section, timing);
    if s.Moved? {
      TimeRunUnfold(lines, a, gap, section, timing);
      if i > 0 {
        TimeRunMonotone(lines, s.next, gap, section, timing, i - 1);
      }
    }
  }

  /** A time tiling that ends on IndexError repeats its last window: the trailing block keeps the old indexes. */
  lemma {:induction false} TimeRunOverran(lines: seq<Line>, a: Attempt, gap: real, section: real, timing: Timing)
    requires AllTwoColumn(lines) && -|lines| <= a.window.init
    ensures var r := TimeRun(lines, a, gap, section, timing);
      r.stop == Overran ==> |r.attempts| >= 2 && r.attempts[|r.attempts| - 1].window == r.attempts[|r.attempts| - 2].window
    decreases 2 * |lines| - a.window.init - a.window.end
  {
    var w := a.window;
    if w.init < w.end < |lines| {
      var s := TimeStep(lines, a, gap, section, timing);
      if s.Moved? {
        TimeRunUnfold(lines, a, gap, section, timing);
        TimeRunOverran(lines, s.next, gap, section, timing);
      }
    }
  }

  /** One step of WriteBlocks in numbered mode: the head attempt's file (if any) before the rest's files. */
  lemma WriteBlocksUnfold(lines: seq<Line>, attempts: seq<Attempt>, k: nat, o: Outcome)
      returns (c: Option<seq<Line>>, rest: Outcome)
    requires attempts != [] && WriteBlocks(lines, attempts, k, false) == Ok(o)
    ensures BlockContent(lines, attempts[0].window) == Ok(c)
    ensures WriteBlocks(lines, attempts[1..], k + 1, false) == Ok(rest)
    ensures c.None? ==> o.files == rest.files
    ensures c.Some? ==> o.files == [BlockFile(Numbered(k), c.value)] + rest.files
  {
    c := BlockContent(lines, attempts[0].window).value;
    rest := WriteBlocks(lines, attempts[1..], k + 1, false).value;
  }

  /** Written block file `f` is numbered from `k` on and holds the rows of the attempt its number names. */
  lemma {:induction false} WriteBlocksNumbering(lines: seq<Line>, attempts: seq<Attempt>, k: nat, o: Outcome, f: nat)
    requires WriteBlocks(lines, attempts, k, false) == Ok(o)
    requires f < |o.files|
    ensures o.files[f].target.Numbered?
    ensures k <= o.files[f].target.k < k + |attempts|
    ensures BlockContent(lines, attempts[o.files[f].target.k - k].window) == Ok(Some(o.files[f].content))
    decreases |attempts|
  {
    var c, rest := WriteBlocksUnfold(lines, attempts, k, o);
    if c.Some? && f == 0 {
      assert o.files[0] == BlockFile(Numbered(k), c.value);
    } else {
      var g := if c.Some? then f - 1 else f;
      assert o.files[f] == rest.files[g];
      WriteBlocksNumbering(lines, attempts[1..], k + 1, rest, g);
      var n := rest.files[g].target.k;
      assert attempts[1..][n - (k + 1)] == attempts[n - k];
    }
  }

  /** Files numbered from `k` on, in strictly increasing order. */
  ghost predicate Ascending(files: seq<BlockFile>, k: int)
  {
    (forall f :: 0 <= f < |files| ==> files[f].target.Numbered? && files[f].target.k >= k)
    && (forall f, g :: 0 <= f < g < |files| ==> files[f].target.k < files[g].target.k)
  }

  /** Putting file `k` (or nothing) in front of files numbered in order from `k + 1` keeps them in order. */
  lemma AscendingPrepend(head: seq<BlockFile>, files: seq<BlockFile>, k: nat)
    requires |head| <= 1 && (|head| == 1 ==> head[0].target == Numbered(k))
    requires Ascending(files, k + 1)
    ensures Ascending(head + files, k)
  {
    var all := head + files;
    forall f, g | 0 <= f < g < |all|
      ensures all[f].target.k < all[g].target.k
    {
      assert all[g] == files[g - |head|];
      if f >= |head| {
        assert all[f] == files[f - |head|];
      }
    }
  }

  /** The files of a numbered WriteBlocks run are numbered from `k` on, in strictly increasing order. */
  lemma {:induction false} WriteBlocksAscending(lines: seq<Line>, attempts: seq<Attempt>, k: nat, o: Outcome)
    requires WriteBlocks(lines, attempts, k, false) == Ok(o)
    ensures Ascending(o.files, k)
    decreases |attempts|
  {
    if attempts != [] {
      var c, rest := WriteBlocksUnfold(lines, attempts, k, o);
      WriteBlocksAscending(lines, attempts[1..], k + 1, rest);
      var head := if c.Some? then [BlockFile(Numbered(k), c.value)] else [];
      AscendingPrepend(head, rest.files, k);
      assert o.files == head + rest.files;
    }
  }

  /** Block numbers increase strictly along the written files. */
  lemma WriteBlocksIncreasing(lines: seq<Line>, attempts: seq<Attempt>, k: nat, o: Outcome, f: nat, g: nat)
    requires WriteBlocks(lines, attempts, k, false) == Ok(o)
    requires f < g < |o.files|
    ensures o.files[f].target.Numbered? && o.files[g].target.Numbered?
    ensures o.files[f].target.k < o.files[g].target.k
  {
    WriteBlocksAscending(lines, attempts, k, o);
  }

  /** Every attempt whose window is not empty gets its block file, under its own number. */
  lemma {:induction false} WriteBlocksComplete(lines: seq<Line>, attempts: seq<Attempt>, k: nat, o: Outcome, i: nat)
    requires WriteBlocks(lines, attempts, k, false) == Ok(o)
    requires i < |attempts| && attempts[i].window.init < attempts[i].window.end
    ensures exists f :: 0 <= f < |o.files| && o.files[f].target == Numbered(k + i)
    decreases |attempts|
  {
    var c, rest := WriteBlocksUnfold(lines, attempts, k, o);
    if i == 0 {
      assert o.files[0].target == Numbered(k);
    } else {
      assert attempts[1..][i - 1] == attempts[i];
      WriteBlocksComplete(lines, attempts[1..], k + 1, rest, i - 1);
      var f :| 0 <= f < |rest.files| && rest.files[f].target == Numbered(k + 1 + (i - 1));
      var d := if c.Some? then 1 else 0;
      assert o.files[f + d] == rest.files[f];
    }
  }

  /** A single cut (no full-file tiling) reports at most one span, which is what is_block_time_table_empty looks for. */
  lemma SingleCutSpans(lines: seq<Line>, start: real, section: real, gap: real, atEnd: bool, byLines: bool, timing: Timing)
    requires if byLines then AllTimeReadable(lines) else AllTwoColumn(lines)
    ensures var r := if byLines then LineBlocks(lines, start, section, gap, atEnd, false, timing)
                     else TimeBlocks(lines, start, section, gap, atEnd, false, timing);
      r.Ok? ==> |r.value.times| <= 1 && |r.value.files| <= 1
  {
    if |lines| > 0 {
      if byLines {
        WriteSingle(lines, FirstAttempt(lines, InitialLines(start, section, atEnd, |lines| - 1), timing.cumulative));
      } else if InitialTime(lines, start, section, atEnd, timing).Ok? {
        TwoColumnReadable(lines);
        WriteSingle(lines, FirstAttempt(lines, InitialTime(lines, start, section, atEnd, timing).value, timing.cumulative));
      }
    }
  }

  // ------------------------------------------------------------ entry points

  /** The options partition passes down to every file. */
  datatype Params = Params(start: real, section: real, gap: real, atEnd: bool, fullFile: bool, byLines: bool)

  /** What a file must look like for the chosen mode (malformed lines make the source raise ValueError). */
  predicate Readable(lines: seq<Line>, p: Params)
  {
    if p.byLines then LineModeInput(lines, p.atEnd) && (p.fullFile ==> p.gap >= 1.0) else AllTwoColumn(lines)
  }

  /** partition_file (tools/partition.py:80-94): line mode or time mode. */
  function FileBlocks(lines: seq<Line>, p: Params, timing: Timing): Result<Outcome, PartitionError>
    requires Readable(lines, p)
  {
    if p.byLines then LineBlocks(lines, p.start, p.section, p.gap, p.atEnd, p.fullFile, timing)
    else TimeBlocks(lines, p.start, p.section, p.gap, p.atEnd, p.fullFile, timing)
  }

  method PartitionFile(lines: seq<Line>, p: Params) returns (timing: Timing, r: Result<Outcome, PartitionError>)
    requires Readable(lines, p)
    ensures |lines| > 0 ==> Sniffed(SampleOf(lines, p.atEnd), p.atEnd, timing)
    ensures r == FileBlocks(lines, p, timing)
  {
    if p.byLines {
      timing, r := PartitionByLines(lines, p.start, p.section, p.gap, p.atEnd, p.fullFile);
    } else {
      timing, r := PartitionByTime(lines, p.start, p.section, p.gap, p.atEnd, p.fullFile);
    }
  }

  /** A directory entry: its name and its non-blank lines. */
  datatype Record = Record(name: string, lines: seq<Line>)

  /** What partition is given: a directory listing or a single file. */
  datatype Input = Directory(records: seq<Record>) | File(path: string, lines: seq<Line>)

  /**
   * The table partition builds over a directory (tools/partition.py:66-72):
   * hidden names are skipped, each other file maps to its outcome, and the
   * first file that raises aborts the whole call. `timings[k]` is the
   * sniffer's verdict for record `k`.
   */
  function DirectoryBlocks(records: seq<Record>, p: Params, timings: seq<Timing>): Result<map<string, Outcome>, PartitionError>
    requires |timings| == |records|
    requires forall k :: 0 <= k < |records| ==> Readable(records[k].lines, p)
    decreases |records|
  {
    if records == [] then Ok(map[])
    else
      var n := |records| - 1;
      AddEntry(DirectoryBlocks(records[..n], p, timings[..n]), records[n], p, timings[n])
  }

  /** One pass of the directory loop: a hidden name leaves the table as it is, an error aborts. */
  function AddEntry(table: Result<map<string, Outcome>, PartitionError>, record: Record, p: Params, timing: Timing): Result<map<string, Outcome>, PartitionError>
    requires Readable(record.lines, p)
  {
    match table
    case Err(e) => Err(e)
    case Ok(m) =>
      if Hidden(record.name) then Ok(m)
      else
        match FileBlocks(record.lines, p, timing)
        case Err(e) => Err(e)
        case Ok(o) => Ok(m[record.name := o])
  }

  predicate InputReadable(input: Input, p: Params)
  {
    match input
    case Directory(records) => forall k :: 0 <= k < |records| ==> Readable(records[k].lines, p)
    case File(_, lines) => Readable(lines, p)
  }

  /** The sniffer's verdict on a non-empty file. */
  predicate FileSniffed(lines: seq<Line>, p: Params, timing: Timing)
    requires Readable(lines, p)
  {
    |lines| > 0 ==> Sniffed(SampleOf(lines, p.atEnd), p.atEnd, timing)
  }

  /** Whether every visible record got its sniffed timing. */
  predicate AllSniffed(records: seq<Record>, p: Params, timings: seq<Timing>)
    requires |timings| == |records|
    requires forall k :: 0 <= k < |records| ==> Readable(records[k].lines, p)
  {
    forall k :: 0 <= k < |records| && !Hidden(records[k].name) ==> FileSniffed(records[k].lines, p, timings[k])
  }

  /** partition (tools/partition.py:55-76) over a directory listing or one file. */
  method Partition(input: Input, p: Params) returns (timings: seq<Timing>, r: Result<map<string, Outcome>, PartitionError>)
    requires InputReadable(input, p)
    ensures input.Directory? ==> |timings| == |input.records| && r == DirectoryBlocks(input.records, p, timings)
    ensures input.Directory? && r.Ok? ==> AllSniffed(input.records, p, timings)
    ensures input.File? ==> |timings| == 1
    ensures input.File? && |input.lines| > 0 ==> Sniffed(SampleOf(input.lines, p.atEnd), p.atEnd, timings[0])
    ensures input.File? ==> r == match FileBlocks(input.lines, p, timings[0])
                                 case Err(e) => Err(e)
                                 case Ok(o) => Ok(map[Basename(input.path) := o])
  {
    if input.File? {
      var timing, o := PartitionFile(input.lines, p);
      timings := [timing];
      match o
      case Err(e) => r := Err(e);
      case Ok(v) => r := Ok(map[Basename(input.path) := v]);
    } else {
      timings, r := PartitionDirectory(input.records, p);
    }
  }

  /** The directory branch of partition: one file after the other, hidden names skipped. */
  method PartitionDirectory(records: seq<Record>, p: Params) returns (timings: seq<Timing>, r: Result<map<string, Outcome>, PartitionError>)
    requires forall k :: 0 <= k < |records| ==> Readable(records[k].lines, p)
    ensures |timings| == |records| && r == DirectoryBlocks(records, p, timings)
    ensures r.Ok? ==> AllSniffed(records, p, timings)
  {
    timings := [];
    r := Ok(map[]);
    for k := 0 to |records|
      invariant |timings| == k && r.Ok?
      invariant DirectoryBlocks(records[..k], p, timings) == r
      invariant AllSniffed(records[..k], p, timings)
    {
      var timing := Timing(false, 0.0);
      if !Hidden(records[k].name) {
        var o;
        timing, o := PartitionFile(records[k].lines, p);
      }
      PartitionStep(records, p, timings, k, timing);
      SniffedStep(records, p, timings, k, timing);
      r := AddEntry(r, records[k], p, timing);
      timings := timings + [timing];
      if r.Err? {
        timings := timings + seq(|records| - k - 1, _ => Timing(false, 0.0));
        DirectoryAbort(records, p, timings, k);
        return;
      }
    }
    assert records[..|records|] == records;
  }

  lemma SniffedStep(records: seq<Record>, p: Params, timings: seq<Timing>, k: nat, timing: Timing)
    requires |timings| == k < |records|
    requires forall j :: 0 <= j < |records| ==> Readable(records[j].lines, p)
    requires AllSniffed(records[..k], p, timings)
    requires !Hidden(records[k].name) ==> FileSniffed(records[k].lines, p, timing)
    ensures AllSniffed(records[..k + 1], p, timings + [timing])
  {
    forall j | 0 <= j < k + 1 && !Hidden(records[..k + 1][j].name)
      ensures FileSniffed(records[..k + 1][j].lines, p, (timings + [timing])[j])
    {
      if j < k {
        assert records[..k + 1][j] == records[..k][j];
      }
    }
  }

  /** The table after record `k` is the table before it with that record added. */
  lemma PartitionStep(records: seq<Record>, p: Params, timings: seq<Timing>, k: nat, timing: Timing)
    requires |timings| == k < |records|
    requires forall j :: 0 <= j < |records| ==> Readable(records[j].lines, p)
    ensures DirectoryBlocks(records[..k + 1], p, timings + [timing])
      == AddEntry(DirectoryBlocks(records[..k], p, timings), records[k], p, timing)
  {
    assert records[..k + 1][..k] == records[..k];
    assert (timings + [timing])[..k] == timings;
  }

  /** Once a file raises, the directory call raises the same error whatever the later files hold. */
  lemma {:induction false} DirectoryAbort(records: seq<Record>, p: Params, timings: seq<Timing>, k: nat)
    requires |timings| == |records| && k < |records|
    requires forall j :: 0 <= j < |records| ==> Readable(records[j].lines, p)
    requires DirectoryBlocks(records[..k + 1], p, timings[..k + 1]).Err?
    ensures DirectoryBlocks(records, p, timings) == DirectoryBlocks(records[..k + 1], p, timings[..k + 1])
    decreases |records| - k
  {
    if k + 1 < |records| {
      var n := |records| - 1;
      assert records[..n][..k + 1] == records[..k + 1];
      assert timings[..n][..k + 1] == timings[..k + 1];
      DirectoryAbort(records[..n], p, timings[..n], k);
      var before := DirectoryBlocks(records[..n], p, timings[..n]);
      assert before.Err?;
      assert DirectoryBlocks(records, p, timings) == AddEntry(before, records[n], p, timings[n]);
    } else {
      assert records[..k + 1] == records && timings[..k + 1] == timings;
    }
  }

  /** is_block_time_table_empty (tools/partition.py:387-388): no file has more than one block span. */
  predicate IsBlockTimeTableEmpty(table: map<string, Outcome>)
  {
    forall name :: name in table ==> |table[name].times| <= 1
  }

  /** Without full-file tiling, every entry of a directory table has at most one span: the table counts as empty. */
  lemma {:induction false} SingleCutTableEmpty(records: seq<Record>, p: Params, timings: seq<Timing>)
    requires |timings| == |records| && !p.fullFile
    requires forall k :: 0 <= k < |records| ==> Readable(records[k].lines, p)
    ensures DirectoryBlocks(records, p, timings).Ok? ==> IsBlockTimeTableEmpty(DirectoryBlocks(records, p, timings).value)
    decreases |records|
  {
    if records != [] {
      var n := |records| - 1;
      SingleCutTableEmpty(records[..n], p, timings[..n]);
      var lines := records[n].lines;
      SingleCutSpans(lines, p.start, p.section, p.gap, p.atEnd, p.byLines, timings[n]);
    }
  }
}
