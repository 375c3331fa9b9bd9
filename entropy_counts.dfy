// The counting phase of apenv2 (tools/entropy.py:250-282). For a series x of
// N values and a dimension m, n_m[i] starts at N - m + 1 and loses one for
// every other window of length m that differs from the window at i by more
// than the tolerance somewhere; n_mp does the same for windows of length
// m + 1. The burned-index table lets the loop skip pairs it already knows to
// differ. The model keeps the loops, the arrays and the table, and proves
// that the counts end up exactly as the docstring of apenv2 describes them.

module EntropyCounts {
  import opened Builtins

  /** The number of windows of length `len` in a series `x`, as apenv2 counts them. */
  function Windows(x: seq<real>, len: int): int
  {
    |x| - len + 1
  }

  /** Whether the values at offset `q` of the windows at `a` and `c` are further apart than `tol`. */
  predicate FarAt(x: seq<real>, a: int, c: int, q: int, tol: real)
    requires 0 <= a + q < |x| && 0 <= c + q < |x|
  {
    Abs(x[a + q] - x[c + q]) > tol
  }

  /**
   * Whether the windows of length `len` at `a` and `c` differ somewhere by
   * more than `tol`, looking from the last offset down as apenv2 does.
   */
  predicate Differ(x: seq<real>, a: int, c: int, len: int, tol: real)
    requires 0 <= a && 0 <= c && a + len <= |x| && c + len <= |x|
    decreases len
  {
    len > 0 && (FarAt(x, a, c, len - 1, tol) || Differ(x, a, c, len - 1, tol))
  }

  /** Differing means some offset below `len` is further apart than `tol`. */
  lemma {:induction false} DifferMeaning(x: seq<real>, a: int, c: int, len: int, tol: real)
    requires 0 <= a && 0 <= c && a + len <= |x| && c + len <= |x|
    ensures Differ(x, a, c, len, tol) <==> exists q :: 0 <= q < len && FarAt(x, a, c, q, tol)
    decreases len
  {
    if len > 0 {
      DifferMeaning(x, a, c, len - 1, tol);
      if FarAt(x, a, c, len - 1, tol) {
        assert 0 <= len - 1 < len;
      }
    }
  }

  /** An offset further apart than `tol` makes the windows differ. */
  lemma {:induction false} DifferAt(x: seq<real>, a: int, c: int, len: int, q: int, tol: real)
    requires 0 <= a && 0 <= c && a + len <= |x| && c + len <= |x|
    requires 0 <= q < len && FarAt(x, a, c, q, tol)
    ensures Differ(x, a, c, len, tol)
    decreases len
  {
    if q < len - 1 {
      DifferAt(x, a, c, len - 1, q, tol);
    }
  }

  /** Windows whose offsets from `len0` on are all close differ exactly when their first `len0` offsets do. */
  lemma {:induction false} DifferPrefix(x: seq<real>, a: int, c: int, len0: int, len: int, tol: real)
    requires 0 <= a && 0 <= c && a + len <= |x| && c + len <= |x| && 0 <= len0 <= len
    requires forall q :: len0 <= q < len ==> !FarAt(x, a, c, q, tol)
    ensures Differ(x, a, c, len, tol) == Differ(x, a, c, len0, tol)
    decreases len
  {
    if len > len0 {
      DifferPrefix(x, a, c, len0, len - 1, tol);
    }
  }

  /** The other windows among the first `count` that differ from window `k`. */
  function Mismatches(x: seq<real>, k: int, count: int, len: int, tol: real): set<int>
    requires 0 <= k < count && count + len - 1 <= |x|
  {
    set c | 0 <= c < count && c != k && Differ(x, k, c, len, tol)
  }

  /** The windows among the first `count` that stay within `tol` of window `k`, window `k` included. */
  function Matches(x: seq<real>, k: int, count: int, len: int, tol: real): set<int>
    requires 0 <= k < count && count + len - 1 <= |x|
  {
    set c | 0 <= c < count && !Differ(x, k, c, len, tol)
  }

  /** Differing is symmetric in the two windows. */
  lemma {:induction false} DifferSymmetric(x: seq<real>, a: int, c: int, len: int, tol: real)
    requires 0 <= a && 0 <= c && a + len <= |x| && c + len <= |x|
    ensures Differ(x, a, c, len, tol) == Differ(x, c, a, len, tol)
    decreases len
  {
    if len > 0 {
      assert x[a + len - 1] - x[c + len - 1] == -(x[c + len - 1] - x[a + len - 1]);
      DifferSymmetric(x, a, c, len - 1, tol);
    }
  }

  // ------------------------------------------------------- loop bookkeeping

  /** Whether the pair `{k, c}` has been dealt with once the loop stands at row `i`, column `j`. */
  ghost predicate Done(i: int, j: int, burned: seq<set<int>>, k: int, c: int)
    requires 0 <= k < |burned| && 0 <= c < |burned|
  {
    var a := if k < c then k else c;
    var d := if k < c then c else k;
    a < i || (a == i && d < j) || d in burned[a]
  }

  /** `gone[k]` holds exactly the partners of `k` among the first `count` whose difference has been subtracted. */
  ghost predicate Tracked(x: seq<real>, tol: real, count: int, len: int, i: int, j: int, burned: seq<set<int>>, gone: seq<set<int>>)
    requires 0 <= count <= |burned| && count + len - 1 <= |x|
  {
    |gone| == count
    && (forall k, c :: 0 <= k < count && c in gone[k] ==> 0 <= c < count)
    && (forall k, c :: 0 <= k < count && 0 <= c < count ==>
         (c in gone[k] <==> c != k && Differ(x, k, c, len, tol) && Done(i, j, burned, k, c)))
  }

  /** Every count is its start value less what has been subtracted. */
  ghost predicate Counted(n: seq<int>, count: int, gone: seq<set<int>>)
  {
    |n| == count && |gone| == count && forall k :: 0 <= k < count ==> n[k] == count - |gone[k]|
  }

  /** A burned pair lies above the diagonal and its windows differ. */
  ghost predicate Burnt(x: seq<real>, m: nat, tol: real, burned: seq<set<int>>)
    requires |burned| == Windows(x, m)
  {
    forall a, c :: 0 <= a < |burned| && c in burned[a] ==> a < c < |burned| && Differ(x, a, c, m, tol)
  }

  /** Whether column `c` is burned in row `a`. */
  predicate InRow(burned: seq<set<int>>, a: int, c: int)
  {
    0 <= a < |burned| && c in burned[a]
  }

  /** Below row `i`, burned pairs come in runs down each diagonal. */
  ghost predicate Closed(i: int, burned: seq<set<int>>)
  {
    forall a, c :: 0 < a && i < a && InRow(burned, a, c) ==> c - 1 in burned[a - 1]
  }

  /** One count table of windows of length `len`, the first `count` of them, with its tracked sets. */
  ghost predicate Table(x: seq<real>, tol: real, count: int, len: int, i: int, j: int, burned: seq<set<int>>, n: seq<int>, gone: seq<set<int>>)
  {
    0 <= count <= |burned| && count + len - 1 <= |x|
    && Counted(n, count, gone) && Tracked(x, tol, count, len, i, j, burned, gone)
  }

  /** The loop state of apenv2 at row `i`, column `j`, except that burned runs may be unfinished. */
  ghost predicate Partial(x: seq<real>, m: nat, tol: real, i: int, j: int, nm: seq<int>, nmp: seq<int>,
                          burned: seq<set<int>>, gone: seq<set<int>>, goneP: seq<set<int>>)
  {
    var L := Windows(x, m);
    L >= 1 && |burned| == L
    && Burnt(x, m, tol, burned)
    && Table(x, tol, L, m, i, j, burned, nm, gone)
    && Table(x, tol, Windows(x, m + 1), m + 1, i, j, burned, nmp, goneP)
  }

  /** The loop state of apenv2 at row `i`, column `j`. */
  ghost predicate State(x: seq<real>, m: nat, tol: real, i: int, j: int, nm: seq<int>, nmp: seq<int>,
                        burned: seq<set<int>>, gone: seq<set<int>>, goneP: seq<set<int>>)
  {
    Partial(x, m, tol, i, j, nm, nmp, burned, gone, goneP) && Closed(i, burned)
  }

  /** Counts with the pair `{a, c}` subtracted. */
  function AddPair(gone: seq<set<int>>, a: int, c: int): (r: seq<set<int>>)
    requires 0 <= a < |gone| && 0 <= c < |gone|
    ensures |r| == |gone|
  {
    gone[a := gone[a] + {c}][c := gone[c] + {a}]
  }

  // ------------------------------------------------------ state transitions

  /** Before the first row nothing has been subtracted. */
  lemma StartState(x: seq<real>, m: nat, tol: real)
    requires Windows(x, m) >= 1
    ensures var L, LP := Windows(x, m), Windows(x, m + 1);
      State(x, m, tol, 0, 1, seq(L, _ => L), seq(LP, _ => LP), seq(L, _ => {}), seq(L, _ => {}), seq(LP, _ => {}))
  {
  }

  /** Moving past a pair whose `Done` status does not change leaves a tracked set valid. */
  lemma AdvanceTracked(x: seq<real>, tol: real, count: int, len: int, i: int, j: int, burned: seq<set<int>>, gone: seq<set<int>>)
    requires 0 <= count <= |burned| && count + len - 1 <= |x|
    requires 0 <= i < j < |burned|
    requires Tracked(x, tol, count, len, i, j, burned, gone)
    requires j < count ==> j in burned[i] || !Differ(x, i, j, len, tol)
    ensures Tracked(x, tol, count, len, i, j + 1, burned, gone)
  {
    forall k, c | 0 <= k < count && 0 <= c < count
      ensures (c in gone[k] <==> c != k && Differ(x, k, c, len, tol) && Done(i, j + 1, burned, k, c))
    {
      if (k == i && c == j) || (k == j && c == i) {
        DifferSymmetric(x, i, j, len, tol);
      } else {
        assert Done(i, j + 1, burned, k, c) == Done(i, j, burned, k, c);
      }
    }
  }

  /** Subtracting a differing pair not yet dealt with, as the column moves past it. */
  lemma AdvanceAdd(x: seq<real>, tol: real, count: int, len: int, i: int, j: int, burned: seq<set<int>>, gone: seq<set<int>>)
    requires 0 <= count <= |burned| && count + len - 1 <= |x|
    requires 0 <= i < j < count
    requires Tracked(x, tol, count, len, i, j, burned, gone)
    requires j !in burned[i] && Differ(x, i, j, len, tol)
    ensures j !in gone[i] && i !in gone[j]
    ensures Tracked(x, tol, count, len, i, j + 1, burned, AddPair(gone, i, j))
  {
    var g := AddPair(gone, i, j);
    forall k, c | 0 <= k < count && c in g[k]
      ensures 0 <= c < count
    {
    }
    forall k, c | 0 <= k < count && 0 <= c < count
      ensures (c in g[k] <==> c != k && Differ(x, k, c, len, tol) && Done(i, j + 1, burned, k, c))
    {
      if (k == i && c == j) || (k == j && c == i) {
        DifferSymmetric(x, i, j, len, tol);
      } else {
        assert Done(i, j + 1, burned, k, c) == Done(i, j, burned, k, c);
        assert (c in g[k]) == (c in gone[k]);
      }
    }
  }

  /** Burning a pair not yet dealt with, and subtracting it. */
  lemma BurnAdd(x: seq<real>, tol: real, count: int, len: int, i: int, j: int, burned: seq<set<int>>, gone: seq<set<int>>, a: int, c: int)
    requires 0 <= count <= |burned| && count + len - 1 <= |x|
    requires 0 <= a < c < count
    requires Tracked(x, tol, count, len, i, j, burned, gone)
    requires !Done(i, j, burned, a, c) && Differ(x, a, c, len, tol)
    ensures c !in gone[a] && a !in gone[c]
    ensures Tracked(x, tol, count, len, i, j, burned[a := burned[a] + {c}], AddPair(gone, a, c))
  {
    var b := burned[a := burned[a] + {c}];
    var g := AddPair(gone, a, c);
    forall k, e | 0 <= k < count && e in g[k]
      ensures 0 <= e < count
    {
    }
    forall k, e | 0 <= k < count && 0 <= e < count
      ensures (e in g[k] <==> e != k && Differ(x, k, e, len, tol) && Done(i, j, b, k, e))
    {
      if (k == a && e == c) || (k == c && e == a) {
        DifferSymmetric(x, a, c, len, tol);
      } else {
        assert Done(i, j, b, k, e) == Done(i, j, burned, k, e);
        assert (e in g[k]) == (e in gone[k]);
      }
    }
  }

  /** Burning a pair not yet dealt with keeps one table's tracked sets and counts in step. */
  lemma BurnCount(x: seq<real>, tol: real, count: int, len: int, i: int, j: int, burned: seq<set<int>>, n: seq<int>, gone: seq<set<int>>,
                  a: int, c: int, burned': seq<set<int>>, n': seq<int>, gone': seq<set<int>>)
    requires Table(x, tol, count, len, i, j, burned, n, gone)
    requires 0 <= a < c < count && !Done(i, j, burned, a, c) && Differ(x, a, c, len, tol)
    requires burned' == burned[a := burned[a] + {c}] && n' == n[a := n[a] - 1][c := n[c] - 1] && gone' == AddPair(gone, a, c)
    ensures Table(x, tol, count, len, i, j, burned', n', gone')
  {
    BurnAdd(x, tol, count, len, i, j, burned, gone, a, c);
    AddCounted(n, count, gone, a, c);
  }

  /** Burning a pair outside the range of a tracked set changes nothing there. */
  lemma BurnOutside(x: seq<real>, tol: real, count: int, len: int, i: int, j: int, burned: seq<set<int>>, n: seq<int>, gone: seq<set<int>>,
                    a: int, c: int, burned': seq<set<int>>)
    requires Table(x, tol, count, len, i, j, burned, n, gone)
    requires 0 <= a < |burned| && c >= count && burned' == burned[a := burned[a] + {c}]
    ensures Table(x, tol, count, len, i, j, burned', n, gone)
  {
    forall k, e | 0 <= k < count && 0 <= e < count
      ensures Done(i, j, burned', k, e) == Done(i, j, burned, k, e)
    {
    }
  }

  /** Subtracting one pair keeps each count equal to its start value less its tracked set. */
  lemma AddCounted(n: seq<int>, count: int, gone: seq<set<int>>, a: int, c: int)
    requires Counted(n, count, gone)
    requires 0 <= a < count && 0 <= c < count && a != c
    requires c !in gone[a] && a !in gone[c]
    ensures Counted(n[a := n[a] - 1][c := n[c] - 1], count, AddPair(gone, a, c))
  {
  }

  /** A row before the current one is finished, so its burned set can be dropped. */
  lemma Retire(x: seq<real>, m: nat, tol: real, i: int, j: int, nm: seq<int>, nmp: seq<int>,
               burned: seq<set<int>>, gone: seq<set<int>>, goneP: seq<set<int>>, a: int)
    requires State(x, m, tol, i, j, nm, nmp, burned, gone, goneP)
    requires 0 <= a < i && a < |burned|
    ensures State(x, m, tol, i, j, nm, nmp, burned[a := {}], gone, goneP)
  {
    var b := burned[a := {}];
    forall k, e | 0 <= k < |burned| && 0 <= e < |burned|
      ensures Done(i, j, b, k, e) == Done(i, j, burned, k, e)
    {
    }
    forall a', c | 0 < a' && i < a' && InRow(b, a', c)
      ensures c - 1 in b[a' - 1]
    {
      assert InRow(burned, a', c);
    }
  }

  /** The end of row `i` is the start of row `i + 1`. */
  lemma NextRow(x: seq<real>, m: nat, tol: real, i: int, nm: seq<int>, nmp: seq<int>,
                burned: seq<set<int>>, gone: seq<set<int>>, goneP: seq<set<int>>)
    requires State(x, m, tol, i, Windows(x, m), nm, nmp, burned, gone, goneP)
    requires 0 <= i
    ensures State(x, m, tol, i + 1, i + 2, nm, nmp, burned, gone, goneP)
  {
    var L := Windows(x, m);
    forall k, e | 0 <= k < L && 0 <= e < L && k != e
      ensures Done(i + 1, i + 2, burned, k, e) == Done(i, L, burned, k, e)
    {
    }
  }

  /** Once every row is done, each tracked set is the set of all differing partners. */
  lemma Finish(x: seq<real>, tol: real, count: int, len: int, L: int, burned: seq<set<int>>, gone: seq<set<int>>, k: int)
    requires 0 <= count <= |burned| == L && count + len - 1 <= |x|
    requires Tracked(x, tol, count, len, L, L + 1, burned, gone)
    requires 0 <= k < count
    ensures gone[k] == Mismatches(x, k, count, len, tol)
  {
  }

  /** Below row `i`, a pair not burned is not burned anywhere further down its diagonal either. */
  lemma {:induction false} NotBurntAlong(i: int, j: int, burned: seq<set<int>>, t: int)
    requires Closed(i, burned)
    requires 0 <= i < j && 0 <= t && j + t < |burned|
    requires j !in burned[i]
    ensures j + t !in burned[i + t]
    decreases t
  {
    if t > 0 {
      NotBurntAlong(i, j, burned, t - 1);
      assert !InRow(burned, i + t, j + t);
    }
  }

  /** Whether `(a, c)` lies on the diagonal run from `(i, j)` at offsets `lo + 1 .. hi` inside the table. */
  predicate OnRun(i: int, j: int, lo: int, hi: int, L: int, a: int, c: int)
  {
    lo < a - i <= hi && c - a == j - i && c < L
  }

  /** `B` is `B0` with the pairs on the diagonal run from `(i, j)` at offsets `lo + 1 .. hi` added. */
  ghost predicate RunFrom(B0: seq<set<int>>, B: seq<set<int>>, i: int, j: int, lo: int, hi: int)
  {
    |B| == |B0| && forall a :: 0 <= a < |B| ==> forall c :: c in B[a] <==> c in B0[a] || OnRun(i, j, lo, hi, |B|, a, c)
  }

  /** A table that adds a whole diagonal run from row `i` to a closed table stays closed. */
  lemma ClosedAfterRun(i: int, j: int, mm: int, B0: seq<set<int>>, B: seq<set<int>>)
    requires Closed(i, B0) && RunFrom(B0, B, i, j, -1, mm)
    ensures Closed(i, B)
  {
    forall a, c | 0 < a && i < a && InRow(B, a, c)
      ensures c - 1 in B[a - 1]
    {
      if c !in B0[a] {
        assert OnRun(i, j, -1, mm, |B|, a - 1, c - 1);
      } else {
        assert InRow(B0, a, c);
      }
    }
  }

  /**
   * The pair at offset `t` of the run from `(i, j)`, inside the table: its
   * windows differ, it was not dealt with yet, and burning it keeps the table
   * burnt and moves the run one step on.
   */
  lemma BurnFacts(x: seq<real>, m: nat, tol: real, i: int, j: int, mm: int, t: int, a: int, c: int, B0: seq<set<int>>, burned: seq<set<int>>)
    requires |burned| == Windows(x, m) && Burnt(x, m, tol, burned) && RunFrom(B0, burned, i, j, t, mm)
    requires 0 <= i < j && 0 <= t <= mm < m && a == i + t && c == j + t && c < |B0| && c !in B0[a]
    requires j !in B0[i] && FarAt(x, i, j, mm, tol)
    ensures !Done(i, j, burned, a, c)
    ensures Differ(x, a, c, m, tol)
    ensures c < Windows(x, m + 1) ==> Differ(x, a, c, m + 1, tol)
    ensures Burnt(x, m, tol, burned[a := burned[a] + {c}])
    ensures RunFrom(B0, burned[a := burned[a] + {c}], i, j, t - 1, mm)
  {

    assert FarAt(x, a, c, mm - t, tol) by {
      assert a + (mm - t) == i + mm && c + (mm - t) == j + mm;
    }
    DifferAt(x, a, c, m, mm - t, tol);
    if c < Windows(x, m + 1) {
      DifferAt(x, a, c, m + 1, mm - t, tol);
    }
  }

  /** Burning a pair that differs and was not dealt with yet, inside both count tables. */
  lemma BurnInside(x: seq<real>, m: nat, tol: real, i: int, j: int, a: int, c: int,
                   burned: seq<set<int>>, nm: seq<int>, nmp: seq<int>, gone: seq<set<int>>, goneP: seq<set<int>>,
                   burned': seq<set<int>>, nm': seq<int>, nmp': seq<int>, gone': seq<set<int>>, goneP': seq<set<int>>)
    requires Table(x, tol, Windows(x, m), m, i, j, burned, nm, gone)
    requires Table(x, tol, Windows(x, m + 1), m + 1, i, j, burned, nmp, goneP)
    requires 0 <= a < c < Windows(x, m + 1) && !Done(i, j, burned, a, c) && Differ(x, a, c, m, tol) && Differ(x, a, c, m + 1, tol)
    requires nm' == nm[a := nm[a] - 1][c := nm[c] - 1]
    requires nmp' == nmp[a := nmp[a] - 1][c := nmp[c] - 1]
    requires burned' == burned[a := burned[a] + {c}]
    requires gone' == AddPair(gone, a, c) && goneP' == AddPair(goneP, a, c)
    ensures Table(x, tol, Windows(x, m), m, i, j, burned', nm', gone')
    ensures Table(x, tol, Windows(x, m + 1), m + 1, i, j, burned', nmp', goneP')
  {
    BurnCount(x, tol, Windows(x, m), m, i, j, burned, nm, gone, a, c, burned', nm', gone');
    BurnCount(x, tol, Windows(x, m + 1), m + 1, i, j, burned, nmp, goneP, a, c, burned', nmp', goneP');
  }

  /** Burning the pair `(a, c)` at offset `t` of the run when it lies in the last column, outside the `m + 1` table. */
  lemma BurnLast(x: seq<real>, m: nat, tol: real, i: int, j: int, mm: int, t: int, a: int, c: int, B0: seq<set<int>>,
                 burned: seq<set<int>>, nm: seq<int>, nmp: seq<int>, gone: seq<set<int>>, goneP: seq<set<int>>,
                 burned': seq<set<int>>, nm': seq<int>, gone': seq<set<int>>)
    requires Partial(x, m, tol, i, j, nm, nmp, burned, gone, goneP) && RunFrom(B0, burned, i, j, t, mm)
    requires 0 <= i < j && 0 <= t <= mm < m && a == i + t && c == j + t && c == Windows(x, m + 1) && c !in B0[a]
    requires j !in B0[i] && FarAt(x, i, j, mm, tol)
    requires nm' == nm[a := nm[a] - 1][c := nm[c] - 1]
    requires burned' == burned[a := burned[a] + {c}]
    requires gone' == AddPair(gone, a, c)
    ensures Partial(x, m, tol, i, j, nm', nmp, burned', gone', goneP)
    ensures RunFrom(B0, burned', i, j, t - 1, mm)
  {
    var L := Windows(x, m);
    assert Burnt(x, m, tol, burned') && RunFrom(B0, burned', i, j, t - 1, mm)
      && Table(x, tol, L, m, i, j, burned', nm', gone') by {
      BurnFacts(x, m, tol, i, j, mm, t, a, c, B0, burned);
      BurnCount(x, tol, L, m, i, j, burned, nm, gone, a, c, burned', nm', gone');
    }
    assert Table(x, tol, Windows(x, m + 1), m + 1, i, j, burned', nmp, goneP) by {
      BurnOutside(x, tol, Windows(x, m + 1), m + 1, i, j, burned, nmp, goneP, a, c, burned');
    }
  }

  // ---------------------------------------------------------------- the loops

  /**
   * The inner `while mabove >= 0` loop of apenv2 (tools/entropy.py:262-272):
   * the windows at `i` and `j` differ at offset `mm`, so every pair on the
   * diagonal from `(i, j)` to `(i + mm, j + mm)` differs too; each such pair
   * inside the tables is subtracted from both windows' counts and burned.
   */
  method Burn(x: seq<real>, m: nat, tol: real, i: int, j: int, mm: int,
              nm: array<int>, nmp: array<int>, burned: array<set<int>>,
              ghost gone: seq<set<int>>, ghost goneP: seq<set<int>>)
    returns (ghost gone': seq<set<int>>, ghost goneP': seq<set<int>>)
    modifies nm, nmp, burned
    requires nm != nmp
    requires State(x, m, tol, i, j, nm[..], nmp[..], burned[..], gone, goneP)
    requires 0 <= i < j < Windows(x, m) && j !in burned[i]
    requires 0 <= mm < m && FarAt(x, i, j, mm, tol)
    ensures State(x, m, tol, i, j + 1, nm[..], nmp[..], burned[..], gone', goneP')
  {
    var L := Windows(x, m);
    ghost var B0 := burned[..];
    gone', goneP' := gone, goneP;
    var t := mm;
    while t >= 0
      invariant -1 <= t <= mm
      invariant Partial(x, m, tol, i, j, nm[..], nmp[..], burned[..], gone', goneP')
      invariant RunFrom(B0, burned[..], i, j, t, mm)
    {
      if j + t < L {
        NotBurntAlong(i, j, B0, t);
      }
      gone', goneP' := BurnPass(x, m, tol, i, j, mm, t, nm, nmp, burned, B0, gone', goneP');
      t := t - 1;
    }
    ClosedAfterRun(i, j, mm, B0, burned[..]);
    assert OnRun(i, j, -1, mm, L, i, j);
    AdvanceTracked(x, tol, L, m, i, j, burned[..], gone');
    AdvanceTracked(x, tol, Windows(x, m + 1), m + 1, i, j, burned[..], goneP');
  }

  /** One pass of the `while mabove >= 0` loop: the pair at offset `t` of the run, with its bookkeeping. */
  method BurnPass(x: seq<real>, m: nat, tol: real, i: int, j: int, mm: int, t: int,
                  nm: array<int>, nmp: array<int>, burned: array<set<int>>, ghost B0: seq<set<int>>,
                  ghost gone: seq<set<int>>, ghost goneP: seq<set<int>>)
    returns (ghost gone': seq<set<int>>, ghost goneP': seq<set<int>>)
    modifies nm, nmp, burned
    requires nm != nmp
    requires Partial(x, m, tol, i, j, nm[..], nmp[..], burned[..], gone, goneP) && RunFrom(B0, burned[..], i, j, t, mm)
    requires 0 <= i < j < |B0| && j !in B0[i]
    requires 0 <= t <= mm < m && FarAt(x, i, j, mm, tol)
    requires j + t < |B0| ==> j + t !in B0[i + t]
    ensures Partial(x, m, tol, i, j, nm[..], nmp[..], burned[..], gone', goneP') && RunFrom(B0, burned[..], i, j, t - 1, mm)
  {
    var L := Windows(x, m);
    gone', goneP' := gone, goneP;
    ghost var B1, n1, p1 := burned[..], nm[..], nmp[..];
    var a, c := i + t, j + t;
    BurnStep(L, a, c, nm, nmp, burned);
    if c < Windows(x, m + 1) {
      gone', goneP' := AddPair(gone, a, c), AddPair(goneP, a, c);
      BurnFacts(x, m, tol, i, j, mm, t, a, c, B0, B1);
      BurnInside(x, m, tol, i, j, a, c, B1, n1, p1, gone, goneP, burned[..], nm[..], nmp[..], gone', goneP');
    } else if c == Windows(x, m + 1) {
      gone' := AddPair(gone, a, c);
      BurnLast(x, m, tol, i, j, mm, t, a, c, B0, B1, n1, p1, gone, goneP, burned[..], nm[..], gone');
    } else {
      forall a', c' ensures OnRun(i, j, t - 1, mm, L, a', c') == OnRun(i, j, t, mm, L, a', c') {
      }
    }
  }

  /** The array updates of one pass of the `while mabove >= 0` loop on the pair `(a, c)`, under the three guards of the source. */
  method BurnStep(L: int, a: int, c: int, nm: array<int>, nmp: array<int>, burned: array<set<int>>)
    modifies nm, nmp, burned
    requires nm != nmp && nm.Length == burned.Length == L && nmp.Length == L - 1
    requires 0 <= a < c
    ensures c < L ==> nm[..] == old(nm[..])[a := old(nm[a]) - 1][c := old(nm[c]) - 1]
    ensures c < L - 1 ==> nmp[..] == old(nmp[..])[a := old(nmp[a]) - 1][c := old(nmp[c]) - 1]
    ensures c < L ==> burned[..] == old(burned[..])[a := old(burned[a]) + {c}]
    ensures c >= L ==> nm[..] == old(nm[..]) && burned[..] == old(burned[..])
    ensures c >= L - 1 ==> nmp[..] == old(nmp[..])
  {
    if a < L && c < L {
      nm[a] := nm[a] - 1;
      nm[c] := nm[c] - 1;
    }
    if a < L - 1 && c < L - 1 {
      nmp[a] := nmp[a] - 1;
      nmp[c] := nmp[c] - 1;
    }
    if a < L && c < L {
      burned[a] := burned[a] + {c};
    }
  }

  /** A column already burned in row `i` is skipped. */
  lemma SkipBurnt(x: seq<real>, m: nat, tol: real, i: int, j: int, nm: seq<int>, nmp: seq<int>,
                  burned: seq<set<int>>, gone: seq<set<int>>, goneP: seq<set<int>>)
    requires State(x, m, tol, i, j, nm, nmp, burned, gone, goneP)
    requires 0 <= i < j < Windows(x, m) && j in burned[i]
    ensures State(x, m, tol, i, j + 1, nm, nmp, burned, gone, goneP)
  {
    AdvanceTracked(x, tol, Windows(x, m), m, i, j, burned, gone);
    AdvanceTracked(x, tol, Windows(x, m + 1), m + 1, i, j, burned, goneP);
  }

  /** A pair of windows that are close at every offset, and whose longer windows are close as well, changes no count. */
  lemma SkipClose(x: seq<real>, m: nat, tol: real, i: int, j: int, nm: seq<int>, nmp: seq<int>,
                  burned: seq<set<int>>, gone: seq<set<int>>, goneP: seq<set<int>>)
    requires State(x, m, tol, i, j, nm, nmp, burned, gone, goneP)
    requires 0 <= i < j < Windows(x, m) && !Differ(x, i, j, m, tol)
    requires j < Windows(x, m + 1) ==> !Differ(x, i, j, m + 1, tol)
    ensures State(x, m, tol, i, j + 1, nm, nmp, burned, gone, goneP)
  {
    AdvanceTracked(x, tol, Windows(x, m), m, i, j, burned, gone);
    AdvanceTracked(x, tol, Windows(x, m + 1), m + 1, i, j, burned, goneP);
  }

  /** A pair of windows of length `m` that are close, but whose windows of length `m + 1` differ, is subtracted from `n_mp` only. */
  lemma CountLonger(x: seq<real>, m: nat, tol: real, i: int, j: int, nm: seq<int>, nmp: seq<int>,
                    burned: seq<set<int>>, gone: seq<set<int>>, goneP: seq<set<int>>)
    requires State(x, m, tol, i, j, nm, nmp, burned, gone, goneP)
    requires 0 <= i < j < Windows(x, m + 1) && j !in burned[i]
    requires !Differ(x, i, j, m, tol) && Differ(x, i, j, m + 1, tol)
    ensures State(x, m, tol, i, j + 1, nm, nmp[i := nmp[i] - 1][j := nmp[j] - 1], burned, gone, AddPair(goneP, i, j))
  {
    AdvanceTracked(x, tol, Windows(x, m), m, i, j, burned, gone);
    AdvanceAdd(x, tol, Windows(x, m + 1), m + 1, i, j, burned, goneP);
    AddCounted(nmp, Windows(x, m + 1), goneP, i, j);
  }

  /**
   * The body of the `for j` loop of apenv2 for a column not burned
   * (tools/entropy.py:256-279): the offsets are scanned from the last one
   * down; at the first one further apart than the tolerance the whole
   * diagonal below it is burned, and when none is, the windows of length
   * `m + 1` are compared at their extra offset.
   */
  method Pair(x: seq<real>, m: nat, tol: real, i: int, j: int,
              nm: array<int>, nmp: array<int>, burned: array<set<int>>,
              ghost gone: seq<set<int>>, ghost goneP: seq<set<int>>)
    returns (ghost gone': seq<set<int>>, ghost goneP': seq<set<int>>)
    modifies nm, nmp, burned
    requires nm != nmp
    requires State(x, m, tol, i, j, nm[..], nmp[..], burned[..], gone, goneP)
    requires 0 <= i < j < Windows(x, m) && j !in burned[i]
    ensures State(x, m, tol, i, j + 1, nm[..], nmp[..], burned[..], gone', goneP')
  {
    var q := Scan(x, m, tol, i, j);
    if q >= 0 {
      gone', goneP' := Burn(x, m, tol, i, j, q, nm, nmp, burned, gone, goneP);
    } else {
      DifferPrefix(x, i, j, 0, m, tol);
      gone', goneP' := Longer(x, m, tol, i, j, nm, nmp, burned, gone, goneP);
    }
  }

  /**
   * The `while m >= 0` scan of apenv2 (tools/entropy.py:260-274): the
   * highest offset at which the windows at `i` and `j` are further apart than
   * the tolerance, or -1 when there is none.
   */
  method Scan(x: seq<real>, m: nat, tol: real, i: int, j: int) returns (q: int)
    requires 0 <= i < j < Windows(x, m)
    ensures -1 <= q < m
    ensures q >= 0 ==> FarAt(x, i, j, q, tol)
    ensures forall r :: q < r < m ==> !FarAt(x, i, j, r, tol)
  {
    q := m - 1;
    while q >= 0 && Abs(x[i + q] - x[j + q]) <= tol
      invariant -1 <= q < m
      invariant forall r :: q < r < m ==> !FarAt(x, i, j, r, tol)
    {
      q := q - 1;
    }
  }

  /**
   * The test after the scan of apenv2 (tools/entropy.py:276-279): windows
   * of length `m` that are close everywhere are still compared at offset `m`,
   * and when both fit in `n_mp` and differ there, both lose one in `n_mp`.
   */
  method Longer(x: seq<real>, m: nat, tol: real, i: int, j: int,
                nm: array<int>, nmp: array<int>, burned: array<set<int>>,
                ghost gone: seq<set<int>>, ghost goneP: seq<set<int>>)
    returns (ghost gone': seq<set<int>>, ghost goneP': seq<set<int>>)
    modifies nmp
    requires nm != nmp
    requires State(x, m, tol, i, j, nm[..], nmp[..], burned[..], gone, goneP)
    requires 0 <= i < j < Windows(x, m) && j !in burned[i] && !Differ(x, i, j, m, tol)
    ensures State(x, m, tol, i, j + 1, nm[..], nmp[..], burned[..], gone', goneP')
  {
    if i < Windows(x, m + 1) && j < Windows(x, m + 1) && Abs(x[i + m] - x[j + m]) > tol {
      DifferAt(x, i, j, m + 1, m, tol);
      CountLonger(x, m, tol, i, j, nm[..], nmp[..], burned[..], gone, goneP);
      nmp[i] := nmp[i] - 1;
      nmp[j] := nmp[j] - 1;
      gone', goneP' := gone, AddPair(goneP, i, j);
    } else {
      if j < Windows(x, m + 1) {
        DifferPrefix(x, i, j, m, m + 1, tol);
      }
      SkipClose(x, m, tol, i, j, nm[..], nmp[..], burned[..], gone, goneP);
      gone', goneP' := gone, goneP;
    }
  }

  /** The `for j` loop of apenv2 over row `i` (tools/entropy.py:254-279). */
  method Row(x: seq<real>, m: nat, tol: real, i: int,
             nm: array<int>, nmp: array<int>, burned: array<set<int>>,
             ghost gone: seq<set<int>>, ghost goneP: seq<set<int>>)
    returns (ghost gone': seq<set<int>>, ghost goneP': seq<set<int>>)
    modifies nm, nmp, burned
    requires nm != nmp
    requires State(x, m, tol, i, i + 1, nm[..], nmp[..], burned[..], gone, goneP)
    requires 0 <= i < Windows(x, m)
    ensures State(x, m, tol, i, Windows(x, m), nm[..], nmp[..], burned[..], gone', goneP')
  {
    gone', goneP' := gone, goneP;
    for j := i + 1 to Windows(x, m)
      invariant State(x, m, tol, i, j, nm[..], nmp[..], burned[..], gone', goneP')
    {
      if j in burned[i] {
        SkipBurnt(x, m, tol, i, j, nm[..], nmp[..], burned[..], gone', goneP');
      } else {
        gone', goneP' := Pair(x, m, tol, i, j, nm, nmp, burned, gone', goneP');
      }
    }
  }

  /**
   * The counting phase of apenv2 (tools/entropy.py:250-279): `n_m[k]` ends
   * as the number of windows of length `m` minus the other windows that
   * differ from window `k`, and `n_mp[k]` the same for length `m + 1`.
   */
  method CountMatches(x: seq<real>, m: nat, tol: real) returns (counts: seq<int>, countsP: seq<int>)
    ensures |counts| == if Windows(x, m) > 0 then Windows(x, m) else 0
    ensures |countsP| == if Windows(x, m + 1) > 0 then Windows(x, m + 1) else 0
    ensures forall k :: 0 <= k < |counts| ==> counts[k] == |counts| - |Mismatches(x, k, |counts|, m, tol)|
    ensures forall k :: 0 <= k < |countsP| ==> countsP[k] == |countsP| - |Mismatches(x, k, |countsP|, m + 1, tol)|
  {
    var L := Windows(x, m);
    if L <= 0 {
      return [], [];
    }
    var nm := new int[L](_ => L);
    var nmp := new int[L - 1](_ => L - 1);
    var burned := new set<int>[L](_ => {});
    StartState(x, m, tol);
    assert nm[..] == seq(L, _ => L) && nmp[..] == seq(L - 1, _ => L - 1) && burned[..] == seq(L, _ => {});
    ghost var gone, goneP := Rows(x, m, tol, nm, nmp, burned, seq(L, _ => {}), seq(L - 1, _ => {}));
    counts, countsP := nm[..], nmp[..];
    Final(x, m, tol, counts, countsP, burned[..], gone, goneP);
  }

  /** The `for i` loop of apenv2 (tools/entropy.py:252-279), with the row before the current one dropped from the burned table. */
  method Rows(x: seq<real>, m: nat, tol: real, nm: array<int>, nmp: array<int>, burned: array<set<int>>,
              ghost gone: seq<set<int>>, ghost goneP: seq<set<int>>)
    returns (ghost gone': seq<set<int>>, ghost goneP': seq<set<int>>)
    modifies nm, nmp, burned
    requires nm != nmp
    requires State(x, m, tol, 0, 1, nm[..], nmp[..], burned[..], gone, goneP)
    ensures State(x, m, tol, Windows(x, m), Windows(x, m) + 1, nm[..], nmp[..], burned[..], gone', goneP')
  {
    gone', goneP' := gone, goneP;
    for i := 0 to Windows(x, m)
      invariant State(x, m, tol, i, i + 1, nm[..], nmp[..], burned[..], gone', goneP')
    {
      if i > 0 {
        Retire(x, m, tol, i, i + 1, nm[..], nmp[..], burned[..], gone', goneP', i - 1);
        burned[i - 1] := {};
      }
      gone', goneP' := Row(x, m, tol, i, nm, nmp, burned, gone', goneP');
      NextRow(x, m, tol, i, nm[..], nmp[..], burned[..], gone', goneP');
    }
  }

  /** After the last row every count is its start value less the windows that differ. */
  lemma Final(x: seq<real>, m: nat, tol: real, nm: seq<int>, nmp: seq<int>,
              burned: seq<set<int>>, gone: seq<set<int>>, goneP: seq<set<int>>)
    requires State(x, m, tol, Windows(x, m), Windows(x, m) + 1, nm, nmp, burned, gone, goneP)
    ensures |nm| == Windows(x, m) && |nmp| == Windows(x, m + 1)
    ensures forall k :: 0 <= k < |nm| ==> nm[k] == |nm| - |Mismatches(x, k, |nm|, m, tol)|
    ensures forall k :: 0 <= k < |nmp| ==> nmp[k] == |nmp| - |Mismatches(x, k, |nmp|, m + 1, tol)|
  {
    var L := Windows(x, m);
    forall k | 0 <= k < L
      ensures nm[k] == L - |Mismatches(x, k, L, m, tol)|
    {
      Finish(x, tol, L, m, L, burned, gone, k);
    }
    forall k | 0 <= k < L - 1
      ensures nmp[k] == L - 1 - |Mismatches(x, k, L - 1, m + 1, tol)|
    {
      Finish(x, tol, L - 1, m + 1, L, burned, goneP, k);
    }
  }

  // ------------------------------------------------- the matrices of the docstring

  /** A window never differs from itself when the tolerance is not negative. */
  lemma {:induction false} SelfClose(x: seq<real>, k: int, len: int, tol: real)
    requires 0 <= k && k + len <= |x| && tol >= 0.0
    ensures !Differ(x, k, k, len, tol)
    decreases len
  {
    if len > 0 {
      SelfClose(x, k, len - 1, tol);
    }
  }

  /** The first `n` indices. */
  function Indices(n: int): (r: set<int>)
    ensures forall c :: c in r <==> 0 <= c < n
    decreases n
  {
    if n <= 0 then {} else Indices(n - 1) + {n - 1}
  }

  lemma {:induction false} IndicesSize(n: nat)
    ensures |Indices(n)| == n
  {
    if n > 0 {
      IndicesSize(n - 1);
    }
  }

  /**
   * The row sums of the matrix the docstring of apenv2 calls Crm
   * (tools/entropy.py:205-226): with a tolerance that is not negative, the
   * start value less the windows that differ is the number of windows within
   * the tolerance of window `k`, window `k` itself among them.
   */
  lemma RowSum(x: seq<real>, k: int, count: int, len: int, tol: real)
    requires 0 <= k < count && 0 <= len && count + len - 1 <= |x| && tol >= 0.0
    ensures k in Matches(x, k, count, len, tol)
    ensures |Matches(x, k, count, len, tol)| == count - |Mismatches(x, k, count, len, tol)|
  {
    SelfClose(x, k, len, tol);
    var near, far := Matches(x, k, count, len, tol), Mismatches(x, k, count, len, tol);
    assert near + far == Indices(count);
    assert near * far == {};
    IndicesSize(count);
  }

  /** The matrix Crm is symmetric: window `c` is within the tolerance of window `k` exactly when `k` is within that of `c`. */
  lemma MatchesSymmetric(x: seq<real>, k: int, c: int, count: int, len: int, tol: real)
    requires 0 <= k < count && 0 <= c < count && 0 <= len && count + len - 1 <= |x|
    ensures c in Matches(x, k, count, len, tol) <==> k in Matches(x, c, count, len, tol)
  {
    DifferSymmetric(x, k, c, len, tol);
  }

  /**
   * `c_m` and `c_mp` of apenv2 (tools/entropy.py:281-282): each count
   * divided by the number of windows. An empty list is never divided.
   */
  function Ratios(n: seq<int>, count: int): (r: seq<real>)
    requires count != 0 || n == []
    ensures |r| == |n|
    ensures forall k :: 0 <= k < |n| ==> r[k] * count as real == n[k] as real
  {
    seq(|n|, k requires 0 <= k < |n| => n[k] as real / count as real)
  }

  /** A count between one and the number of windows gives a ratio in (0, 1]. */
  lemma RatioInUnit(n: int, count: int)
    requires 1 <= n <= count
    ensures 0.0 < n as real / count as real <= 1.0
  {
  }

  /** With a tolerance that is not negative, window `k` itself keeps its count between one and the number of windows. */
  lemma CountInRange(x: seq<real>, k: int, count: int, len: int, tol: real)
    requires 0 <= k < count && 0 <= len && count + len - 1 <= |x| && tol >= 0.0
    ensures 1 <= count - |Mismatches(x, k, count, len, tol)| <= count
  {
    RowSum(x, k, count, len, tol);
    var near := Matches(x, k, count, len, tol);
    assert near <= Indices(count);
    IndicesSize(count);
    assert {k} <= near;
  }

  /** With a tolerance that is not negative every ratio lies in (0, 1], so the logarithms apenv2 takes next are defined. */
  lemma RatiosInUnit(x: seq<real>, len: int, tol: real, n: seq<int>)
    requires 0 <= len && |n| + len - 1 <= |x| && tol >= 0.0
    requires forall k :: 0 <= k < |n| ==> n[k] == |n| - |Mismatches(x, k, |n|, len, tol)|
    ensures forall k :: 0 <= k < |n| ==> 0.0 < Ratios(n, |n|)[k] <= 1.0
  {
    var r := Ratios(n, |n|);
    forall k | 0 <= k < |n|
      ensures 0.0 < r[k] <= 1.0
    {
      CountInRange(x, k, |n|, len, tol);
      assert r[k] == n[k] as real / |n| as real;
      RatioInUnit(n[k], |n|);
    }
  }
}
