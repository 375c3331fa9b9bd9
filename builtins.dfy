// Python 2 built-in semantics the analysis tools rely on: truncating int(),
// round() half away from zero, negative indexing, clamped slicing, range(),
// float() and int() on decimal tokens, and a few str helpers.

module Builtins {

  datatype Option<T> = None | Some(value: T)

  datatype Result<T, E> = Ok(value: T) | Err(error: E)

  /** Python `abs` on reals. */
  function Abs(x: real): real
  {
    if x < 0.0 then -x else x
  }

  /** Python `abs` on integers. */
  function IAbs(x: int): nat
  {
    if x < 0 then -x else x
  }

  /** Python `int(x)` on a float: truncation toward zero. */
  function Trunc(x: real): (r: int)
    ensures IAbs(r) as real <= Abs(x) < IAbs(r) as real + 1.0
    ensures x >= 0.0 ==> r >= 0
    ensures x <= 0.0 ==> r <= 0
  {
    if x >= 0.0 then x.Floor else -((-x).Floor)
  }

  /** Python 2 `round(x)`: to the nearest integer, halves away from zero. */
  function Round(x: real): (r: int)
    ensures Abs(r as real - x) <= 0.5
    ensures Abs(r as real - x) == 0.5 ==> IAbs(r) as real > Abs(x)
  {
    if x >= 0.0 then (x + 0.5).Floor else -((-x + 0.5).Floor)
  }

  lemma {:induction false} RoundOfInteger(n: int)
    ensures Round(n as real) == n
  {
  }

  lemma {:induction false} TruncOfInteger(n: int)
    ensures Trunc(n as real) == n
  {
  }

  // ---------------------------------------------------------------- indexing

  /** `s[i]` is defined in Python for `-|s| <= i < |s|`. */
  predicate InBounds(n: nat, i: int)
  {
    -(n as int) <= i < n
  }

  /** The position a Python index denotes. */
  function Norm(n: nat, i: int): (k: nat)
    requires InBounds(n, i)
    ensures k < n
    ensures i >= 0 ==> k == i
    ensures i < 0 ==> k == n + i
  {
    if i < 0 then n + i else i
  }

  /** Python `s[i]`. */
  function At<T>(s: seq<T>, i: int): T
    requires InBounds(|s|, i)
  {
    s[Norm(|s|, i)]
  }

  /** Where a Python slice bound lands: negatives count from the end, then clamped to `[0, n]`. */
  function Clamp(n: nat, i: int): (k: nat)
    ensures k <= n
    ensures 0 <= i <= n ==> k == i
    ensures -(n as int) <= i < 0 ==> k == n + i
    ensures i > n ==> k == n
    ensures i < -(n as int) ==> k == 0
  {
    if i < 0 then (if i + n < 0 then 0 else i + n) else if i > n then n else i
  }

  /** Python `s[i:j]`. */
  function Slice<T>(s: seq<T>, i: int, j: int): (r: seq<T>)
    ensures |r| <= |s|
    ensures Clamp(|s|, i) <= Clamp(|s|, j) ==> r == s[Clamp(|s|, i)..Clamp(|s|, j)]
    ensures Clamp(|s|, i) > Clamp(|s|, j) ==> r == []
  {
    var a := Clamp(|s|, i);
    var b := Clamp(|s|, j);
    if a <= b then s[a..b] else []
  }

  /** Python `range(start, stop, step)` for a positive step. */
  function Range(start: int, stop: int, step: nat): (r: seq<int>)
    requires step > 0
    ensures forall k :: 0 <= k < |r| ==> start <= r[k] < stop
    ensures start < stop ==> |r| > 0 && r[0] == start
    ensures start >= stop ==> r == []
    decreases stop - start
  {
    if start >= stop then [] else [start] + Range(start + step, stop, step)
  }

  /** The `k`-th value of a range is `start + k * step`, below `stop`, and the next step would reach `stop`. */
  lemma {:induction false} RangeAt(start: int, stop: int, step: nat, k: int)
    requires step > 0 && 0 <= k < |Range(start, stop, step)|
    ensures Range(start, stop, step)[k] == start + k * step < stop
    ensures k == |Range(start, stop, step)| - 1 ==> start + k * step + step >= stop
    decreases k
  {
    if k > 0 {
      RangeAt(start + step, stop, step, k - 1);
      assert start + step + (k - 1) * step == start + k * step;
    }
  }

  /** Python `range(start, stop, step)` for a negative step `-down`: `start, start - down, …` while above `stop`. */
  function Down(start: int, stop: int, down: int): (r: seq<int>)
    requires down > 0
    ensures forall k :: 0 <= k < |r| ==> r[k] == start - k * down && r[k] > stop
    ensures start <= stop ==> r == []
    decreases start - stop
  {
    if start <= stop then [] else [start] + Down(start - down, stop, down)
  }

  /**
   * Python `range(start, stop, step)` for any step: `None` where a zero step
   * makes it raise ValueError, a count up for a positive step and a count
   * down for a negative one.
   */
  function StepRange(start: int, stop: int, step: int): (r: Option<seq<int>>)
    ensures r.None? <==> step == 0
    ensures step > 0 ==> r == Some(Range(start, stop, step))
    ensures step < 0 ==> r == Some(Down(start, stop, -step))
  {
    if step == 0 then None
    else if step > 0 then Some(Range(start, stop, step))
    else Some(Down(start, stop, -step))
  }

  /** Python `range(a, b)`: the consecutive integers from `a` up to, not including, `b`. */
  function Interval(a: int, b: int): (r: seq<int>)
    ensures |r| == (if a < b then b - a else 0)
  {
    seq(if a < b then b - a else 0, k => a + k)
  }

  /** The `k`-th value of `range(a, b)` is `a + k`. */
  lemma IntervalAt(a: int, b: int, k: int)
    requires 0 <= k < |Interval(a, b)|
    ensures Interval(a, b)[k] == a + k
  {
  }

  /** `range(a, b)` is `range(a, b, 1)`. */
  lemma {:induction false} IntervalIsRange(a: int, b: int)
    ensures Interval(a, b) == Range(a, b, 1)
    decreases b - a
  {
    if a < b {
      IntervalIsRange(a + 1, b);
      assert Interval(a, b) == [a] + Interval(a + 1, b);
    }
  }

  // ----------------------------------------------------------------- numbers

  /** The concatenation of a list of lists (`sum(lists, [])`). */
  function Concat<T>(lists: seq<seq<T>>): seq<T>
  {
    if lists == [] then [] else lists[0] + Concat(lists[1..])
  }

  lemma {:induction false} ConcatSnoc<T>(lists: seq<seq<T>>, last: seq<T>)
    ensures Concat(lists + [last]) == Concat(lists) + last
  {
    if lists == [] {
      assert [] + [last] == [last];
      assert [last][1..] == [];
    } else {
      assert (lists + [last])[1..] == lists[1..] + [last];
      ConcatSnoc(lists[1..], last);
    }
  }

  function Sum(s: seq<real>): real
  {
    if s == [] then 0.0 else s[0] + Sum(s[1..])
  }

  lemma {:induction false} SumAppend(a: seq<real>, b: seq<real>)
    ensures Sum(a + b) == Sum(a) + Sum(b)
  {
    if a != [] {
      assert (a + b)[0] == a[0];
      assert (a + b)[1..] == a[1..] + b;
      SumAppend(a[1..], b);
    } else {
      assert a + b == b;
    }
  }

  /** numpy-free arithmetic mean (`sum(l) / float(len(l))`). */
  function Mean(s: seq<real>): real
    requires |s| > 0
  {
    Sum(s) / |s| as real
  }

  // ----------------------------------------------------------------- strings

  predicate IsDigit(c: char)
  {
    '0' <= c <= '9'
  }

  /** Python `str.isdigit()`: non-empty and all decimal digits. */
  predicate IsDigits(s: string)
  {
    |s| > 0 && forall i :: 0 <= i < |s| ==> IsDigit(s[i])
  }

  function DigitValue(c: char): nat
    requires IsDigit(c)
  {
    (c - '0') as nat
  }

  /** The value of a string of decimal digits (most significant first). */
  function DigitsValue(s: string): nat
    requires forall i :: 0 <= i < |s| ==> IsDigit(s[i])
  {
    if s == [] then 0 else 10 * DigitsValue(s[..|s| - 1]) + DigitValue(s[|s| - 1])
  }

  /**
   * Scans an unsigned decimal `ddd`, `ddd.ddd`, `ddd.` or `.ddd`: `acc` is the
   * value read so far and `scale` the weight of the next fraction digit.
   */
  function Decimal(s: string, acc: real, scale: real, seenDot: bool, seenDigit: bool): Option<real>
    decreases |s|
  {
    if s == [] then (if seenDigit then Some(acc) else None)
    else if IsDigit(s[0]) then
      if seenDot then Decimal(s[1..], acc + DigitValue(s[0]) as real * scale, scale / 10.0, true, true)
      else Decimal(s[1..], acc * 10.0 + DigitValue(s[0]) as real, scale, false, true)
    else if s[0] == '.' && !seenDot then Decimal(s[1..], acc, scale, true, seenDigit)
    else None
  }

  /** Python `float(token)` restricted to plain decimal notation: optional sign, digits, optional fraction. */
  function ParseReal(s: string): Option<real>
  {
    if |s| > 0 && (s[0] == '-' || s[0] == '+') then
      match Decimal(s[1..], 0.0, 0.1, false, false)
      case Some(v) => Some(if s[0] == '-' then -v else v)
      case None => None
    else Decimal(s, 0.0, 0.1, false, false)
  }

  /** The decimal spelling Python's `str(n)` gives a natural number. */
  function NatToString(n: nat): (s: string)
    ensures IsDigits(s)
    decreases n
  {
    if n < 10 then ['0' + n as char] else NatToString(n / 10) + ['0' + (n % 10) as char]
  }

  lemma {:induction false} NatToStringRoundTrip(n: nat)
    ensures DigitsValue(NatToString(n)) == n
    decreases n
  {
    var s := NatToString(n);
    if n >= 10 {
      NatToStringRoundTrip(n / 10);
      assert s[..|s| - 1] == NatToString(n / 10);
    }
  }

  /** Python `int(s)` on an all-digit token. */
  function ParseNat(s: string): (r: Option<nat>)
    ensures r.Some? <==> IsDigits(s)
  {
    if IsDigits(s) then Some(DigitsValue(s)) else None
  }

  /**
   * Python 2 `int(s)` on a string: surrounding whitespace, an optional sign
   * and decimal digits; anything else raises ValueError, which is `None`.
   */
  function PyInt(s: string): (r: Option<int>)
    ensures IsDigits(Strip(s)) ==> r == Some(DigitsValue(Strip(s)) as int)
    ensures r.Some? ==> |Strip(s)| > 0
  {
    var t := Strip(s);
    if |t| > 0 && (t[0] == '-' || t[0] == '+') then
      match ParseNat(t[1..])
      case None => None
      case Some(v) => Some(if t[0] == '-' then -(v as int) else v as int)
    else
      match ParseNat(t)
      case None => None
      case Some(v) => Some(v as int)
  }

  /** A string without whitespace at either end is its own strip. */
  lemma StripUnchanged(s: string)
    requires |s| > 0 && !IsSpace(s[0]) && !IsSpace(s[|s| - 1])
    ensures Strip(s) == s
  {
  }

  /** Python `str.split(sep)` for a one-character separator: never empty, keeps empty fields. */
  function Split(s: string, sep: char): (r: seq<string>)
    ensures |r| > 0
    decreases |s|
  {
    if sep !in s then [s]
    else
      var d := FirstIndex(s, sep);
      [s[..d]] + Split(s[d + 1..], sep)
  }

  /** No field of a split holds the separator. */
  lemma {:induction false} SplitFieldsClean(s: string, sep: char)
    ensures var r := Split(s, sep); forall k :: 0 <= k < |r| ==> sep !in r[k]
    decreases |s|
  {
    if sep in s {
      var d := FirstIndex(s, sep);
      SplitFieldsClean(s[d + 1..], sep);
      var r := Split(s, sep);
      assert r == [s[..d]] + Split(s[d + 1..], sep);
      forall k | 0 <= k < |r|
        ensures sep !in r[k]
      {
        if k > 0 {
          assert r[k] == Split(s[d + 1..], sep)[k - 1];
        }
      }
    }
  }

  /** Python `sep.join(parts)`; joining no parts gives the empty string. */
  function Join(parts: seq<string>, sep: char): string
  {
    if |parts| == 0 then "" else if |parts| == 1 then parts[0] else parts[0] + [sep] + Join(parts[1..], sep)
  }

  /** Joining parts that contain no separator and splitting back gives the parts. */
  lemma {:induction false} SplitJoin(parts: seq<string>, sep: char)
    requires |parts| > 0
    requires forall k :: 0 <= k < |parts| ==> sep !in parts[k]
    ensures Split(Join(parts, sep), sep) == parts
    decreases |parts|
  {
    if |parts| > 1 {
      var s := Join(parts, sep);
      var p := parts[0];
      assert s == p + [sep] + Join(parts[1..], sep);
      assert s[|p|] == sep;
      assert sep in s;
      FirstIndexAfter(p, sep, Join(parts[1..], sep));
      assert s[..|p|] == p;
      assert s[|p| + 1..] == Join(parts[1..], sep);
      SplitJoin(parts[1..], sep);
      assert parts == [p] + parts[1..];
    }
  }

  /** The first separator after a part without one is right after that part. */
  lemma {:induction false} FirstIndexAfter(p: string, sep: char, rest: string)
    requires sep !in p
    ensures sep in p + [sep] + rest && FirstIndex(p + [sep] + rest, sep) == |p|
    decreases |p|
  {
    var s := p + [sep] + rest;
    assert s[|p|] == sep;
    if |p| > 0 {
      assert s[1..] == p[1..] + [sep] + rest;
      FirstIndexAfter(p[1..], sep, rest);
    }
  }

  /** The first position of `c` in `s` (Python `s.index(c)`). */
  function FirstIndex(s: string, c: char): (d: nat)
    requires c in s
    ensures d < |s| && s[d] == c && c !in s[..d]
  {
    if s[0] == c then 0 else FirstIndex(s[1..], c) + 1
  }

  /** Splitting on a separator and joining back with it gives the original string. */
  lemma {:induction false} JoinSplit(s: string, sep: char)
    ensures Join(Split(s, sep), sep) == s
    decreases |s|
  {
    if sep in s {
      var d := FirstIndex(s, sep);
      JoinSplit(s[d + 1..], sep);
      assert s == s[..d] + [sep] + s[d + 1..];
    }
  }

  /** Python `needle in haystack` for strings. */
  predicate Contains(haystack: string, needle: string)
  {
    exists i :: 0 <= i <= |haystack| - |needle| && OccursAt(haystack, needle, i)
  }

  predicate OccursAt(haystack: string, needle: string, i: int)
  {
    0 <= i <= |haystack| - |needle| && haystack[i..i + |needle|] == needle
  }

  /** Python `s.startswith(prefix)`. */
  predicate StartsWith(s: string, prefix: string)
  {
    |prefix| <= |s| && s[..|prefix|] == prefix
  }

  /** `str.isspace()` on one character: the ASCII whitespace Python's `strip()` removes. */
  predicate IsSpace(c: char)
  {
    c == ' ' || c == '\t' || c == '\n' || c == '\r' || c == '\U{B}' || c == '\U{C}'
  }

  /** Python `s.strip()`: leading and trailing whitespace removed. */
  function Strip(s: string): (r: string)
    ensures |r| <= |s|
    ensures |r| > 0 ==> !IsSpace(r[0]) && !IsSpace(r[|r| - 1])
  {
    StripRight(StripLeft(s))
  }

  function StripLeft(s: string): (r: string)
    ensures |r| <= |s| && r == s[|s| - |r|..]
    ensures |r| > 0 ==> !IsSpace(r[0])
    ensures forall i :: 0 <= i < |s| - |r| ==> IsSpace(s[i])
  {
    if |s| > 0 && IsSpace(s[0]) then StripLeft(s[1..]) else s
  }

  function StripRight(s: string): (r: string)
    ensures |r| <= |s| && r == s[..|r|]
    ensures |r| > 0 ==> !IsSpace(r[|r| - 1])
    ensures |s| > 0 && !IsSpace(s[0]) ==> |r| > 0 && r[0] == s[0]
    ensures forall i :: |r| <= i < |s| ==> IsSpace(s[i])
  {
    if |s| > 0 && IsSpace(s[|s| - 1]) then StripRight(s[..|s| - 1]) else s
  }

  /** Strip removes whitespace only: a character that is not whitespace survives it. */
  lemma StripKeeps(s: string, i: nat)
    requires i < |s| && !IsSpace(s[i])
    ensures s[i] in Strip(s)
  {
    var l := StripLeft(s);
    var j := i - (|s| - |l|);
    assert 0 <= j < |l| && l[j] == s[i];
    var r := StripRight(l);
    assert j < |r|;
    assert r[j] == s[i];
  }

  /** `os.path.join(a, b)` (posixpath): an absolute `b` replaces `a`; otherwise one `/` between them. */
  function PathJoin(a: string, b: string): (r: string)
    ensures StartsWith(b, "/") ==> r == b
    ensures !StartsWith(b, "/") ==> |r| >= |b| && r[|r| - |b|..] == b
  {
    if StartsWith(b, "/") then b
    else if a == [] || a[|a| - 1] == '/' then a + b
    else a + "/" + b
  }

  /** `os.path.basename(path)`: what follows the last `/`. */
  function Basename(path: string): (r: string)
    ensures '/' !in r
    ensures |r| <= |path| && r == path[|path| - |r|..]
    ensures |r| < |path| ==> path[|path| - |r| - 1] == '/'
  {
    if path == [] || path[|path| - 1] == '/' then []
    else
      var n := |path| - 1;
      var front := path[..n];
      var r := Basename(front);
      var res := r + [path[n]];
      assert res == path[n - |r|..] by {
        assert path[n - |r|..] == front[n - |r|..] + [path[n]];
      }
      assert '/' !in res by {
        assert forall c :: c in res ==> c in r || c == path[n];
      }
      res
  }

  /** The base name of a joined path is the last component when that component has no `/`. */
  lemma {:induction false} BasenameOfJoin(a: string, b: string)
    requires '/' !in b
    ensures Basename(PathJoin(a, b)) == b
  {
    var r := PathJoin(a, b);
    if |b| < |r| {
      assert r[|r| - |b| - 1] == '/';
    }
    BasenameOfSuffix(r, b);
  }

  /** A suffix without `/` right after a `/` (or making up the whole path) is the base name. */
  lemma BasenameOfSuffix(path: string, b: string)
    requires '/' !in b && |b| <= |path| && path[|path| - |b|..] == b
    requires |b| < |path| ==> path[|path| - |b| - 1] == '/'
    ensures Basename(path) == b
  {
  }

}
