// The list and path helpers of tools/utilityFunctions.py that the analysis
// tools share: head/tail/first/last, alternating merge, chunking, balanced
// slicing, path clean-up, hidden-name filtering, header labels and the
// parsing of multiscale parameters out of result names.

module UtilityFunctions {
  import opened Builtins

  // ------------------------------------------------------------------ lists

  /** head (tools/utilityFunctions.py:63-71): `v[0:n]`, a prefix of `v`. */
  function Head<T>(v: seq<T>, n: int): (r: seq<T>)
    ensures |r| == Clamp(|v|, n)
    ensures r == v[..|r|]
  {
    Slice(v, 0, n)
  }

  /**
   * tail (tools/utilityFunctions.py:74-84): `v[len(v) - n:]`, with `n`
   * defaulting to `len(v) - 1`. The result is always a suffix of `v`.
   */
  function Tail<T>(v: seq<T>, n: Option<int>): (r: seq<T>)
    ensures |r| <= |v| && r == v[|v| - |r|..]
    ensures |r| == |v| - Clamp(|v|, |v| - (if n.Some? then n.value else |v| - 1))
  {
    var k := if n.Some? then n.value else |v| - 1;
    Slice(v, |v| - k, |v|)
  }

  /** Without a count, tail drops exactly the first element (and an empty list stays empty). */
  lemma TailDropsFirst<T>(v: seq<T>)
    ensures |v| > 0 ==> Tail(v, None) == v[1..]
    ensures |v| == 0 ==> Tail(v, None) == []
  {
  }

  /** For a count up to the length, tail gives exactly the last `n` elements. */
  lemma TailLast<T>(v: seq<T>, n: nat)
    requires n <= |v|
    ensures |Tail(v, Some(n))| == n
    ensures Head(v, |v| - n) + Tail(v, Some(n)) == v
  {
  }

  /**
   * As written, a count larger than the list does not give the whole list:
   * `len(v) - n` is then negative and counts from the end, so `tail([1, 2, 3], 5)`
   * is `[2, 3]`.
   */
  lemma TailOverlong<T>(v: seq<T>, n: int)
    requires |v| < n < 2 * |v|
    ensures |Tail(v, Some(n))| == n - |v| < |v|
  {
  }

  lemma TailOverlongExample()
    ensures Tail([1, 2, 3], Some(5)) == [2, 3]
  {
  }

  /** tail with the evident intent: the last `n` elements, or the whole list when it is shorter than `n`. */
  function TailClamped<T>(v: seq<T>, n: Option<int>): (r: seq<T>)
    ensures |r| <= |v| && r == v[|v| - |r|..]
    ensures n.Some? && n.value >= 0 ==> |r| == (if n.value <= |v| then n.value else |v|)
    ensures n.None? ==> r == Tail(v, None)
  {
    if n.Some? && n.value > |v| then v else Tail(v, n)
  }

  /** The corrected tail agrees with the written one wherever the count fits the list. */
  lemma TailClampedAgrees<T>(v: seq<T>, n: int)
    requires n <= |v|
    ensures TailClamped(v, Some(n)) == Tail(v, Some(n))
  {
  }

  /** first (tools/utilityFunctions.py:87-93): the single element of `head(v, 1)`. */
  function First<T>(v: seq<T>): (r: T)
    requires |v| > 0
    ensures r == v[0]
  {
    Head(v, 1)[0]
  }

  /** last (tools/utilityFunctions.py:108-116), on a list: the single element of `tail(v, 1)`. */
  function Last<T>(v: seq<T>): (r: T)
    requires |v| > 0
    ensures r == v[|v| - 1]
  {
    TailLast(v, 1);
    Tail(v, Some(1))[0]
  }

  /**
   * alternate_merge_lists (tools/utilityFunctions.py:143-152): cycling over
   * the two iterators until one of them runs out; the generator stops at the
   * first exhausted `next()`, so an element of `a` may come last but never an
   * unpaired element of `b`.
   */
  function AlternateMerge<T>(a: seq<T>, b: seq<T>): (r: seq<T>)
    ensures |r| == if |a| <= |b| then 2 * |a| else 2 * |b| + 1
    ensures forall i :: 0 <= i < |r| ==> r[i] == if i % 2 == 0 then a[i / 2] else b[i / 2]
    decreases |a|
  {
    if a == [] then []
    else if b == [] then [a[0]]
    else [a[0], b[0]] + AlternateMerge(a[1..], b[1..])
  }

  /** The elements at even positions. */
  function Evens<T>(s: seq<T>): seq<T>
    decreases |s|
  {
    if |s| == 0 then [] else if |s| == 1 then [s[0]] else [s[0]] + Evens(s[2..])
  }

  /** The elements at odd positions. */
  function Odds<T>(s: seq<T>): seq<T>
    decreases |s|
  {
    if |s| <= 1 then [] else [s[1]] + Odds(s[2..])
  }

  /** Merging two lists of equal length is undone by taking even and odd positions. */
  lemma {:induction false} AlternateMergeInverse<T>(a: seq<T>, b: seq<T>)
    requires |a| == |b|
    ensures Evens(AlternateMerge(a, b)) == a
    ensures Odds(AlternateMerge(a, b)) == b
    decreases |a|
  {
    if a != [] {
      var r := AlternateMerge(a, b);
      assert r == [a[0], b[0]] + AlternateMerge(a[1..], b[1..]);
      assert r[2..] == AlternateMerge(a[1..], b[1..]);
      AlternateMergeInverse(a[1..], b[1..]);
    }
  }

  /** The documented example: `[1,2,3]` and `[4,5,6]` merge into `[1,4,2,5,3,6]`. */
  lemma AlternateMergeExample()
    ensures AlternateMerge([1, 2, 3], [4, 5, 6]) == [1, 4, 2, 5, 3, 6]
  {
    assert AlternateMerge([3], [6]) == [3, 6];
    assert [1, 2, 3][1..] == [2, 3] && [4, 5, 6][1..] == [5, 6];
    assert [2, 3][1..] == [3] && [5, 6][1..] == [6];
  }

  /**
   * list_of_lists_with_size (tools/utilityFunctions.py:191-200):
   * `[l[i:i + size] for i in range(0, len(l), size)]`. A negative size gives
   * an empty range; a zero size raises ValueError in `range`.
   */
  function ListOfListsWithSize<T>(l: seq<T>, size: int): (r: seq<seq<T>>)
    requires size != 0
    ensures size < 0 ==> r == []
    ensures forall i :: 0 <= i < |r| ==> 0 < |r[i]| <= size
    ensures forall i :: 0 <= i < |r| - 1 ==> |r[i]| == size
  {
    if size < 0 then [] else ChunksFrom(l, 0, size)
  }

  /** The chunks `l[i:i + size]` for `i = from, from + size, …` below `len(l)`. */
  function ChunksFrom<T>(l: seq<T>, from: nat, size: nat): (r: seq<seq<T>>)
    requires size > 0
    ensures forall i :: 0 <= i < |r| ==> 0 < |r[i]| <= size
    ensures forall i :: 0 <= i < |r| - 1 ==> |r[i]| == size
    decreases |l| - from
  {
    if from >= |l| then []
    else [Slice(l, from, from + size)] + ChunksFrom(l, from + size, size)
  }

  /** There are `ceil(len(l) / size)` chunks. */
  lemma ChunksCount<T>(l: seq<T>, size: int)
    requires size > 0
    ensures var r := ListOfListsWithSize(l, size); (|r| - 1) * size < |l| <= |r| * size
  {
    ChunksFromCount(l, 0, size);
  }

  lemma {:induction false} ChunksFromCount<T>(l: seq<T>, from: nat, size: nat)
    requires size > 0 && from <= |l|
    ensures var r := ChunksFrom(l, from, size); (|r| - 1) * size < |l| - from <= |r| * size
    decreases |l| - from
  {
    if from < |l| {
      var rest := ChunksFrom(l, from + size, size);
      var n := |rest|;
      assert |ChunksFrom(l, from, size)| == n + 1;
      if from + size <= |l| {
        ChunksFromCount(l, from + size, size);
        if n >= 1 {
          MulStep(n, size);
        }
      } else {
        assert rest == [];
      }
      MulStep(n + 1, size);
    }
  }

  /** The chunks concatenate back to the input list. */
  lemma {:induction false} ChunksCover<T>(l: seq<T>, size: int)
    requires size > 0
    ensures Concat(ListOfListsWithSize(l, size)) == l
  {
    ChunksFromCover(l, 0, size);
  }

  lemma {:induction false} ChunksFromCover<T>(l: seq<T>, from: nat, size: nat)
    requires size > 0 && from <= |l|
    ensures Concat(ChunksFrom(l, from, size)) == l[from..]
    decreases |l| - from
  {
    if from < |l| {
      var next := if from + size <= |l| then from + size else |l|;
      ChunksFromCover(l, next, size);
      ChunksFromStep(l, from, size, next);
      var rest := ChunksFrom(l, next, size);
      assert ([l[from..next]] + rest)[1..] == rest;
      assert l[from..] == l[from..next] + l[next..];
    }
  }

  /** The first chunk from `from` ends at `next`, where the remaining chunks start. */
  lemma ChunksFromStep<T>(l: seq<T>, from: nat, size: nat, next: nat)
    requires size > 0 && from < |l| && next == if from + size <= |l| then from + size else |l|
    ensures ChunksFrom(l, from, size) == [l[from..next]] + ChunksFrom(l, next, size)
  {
    if from + size > |l| {
      assert ChunksFrom(l, from + size, size) == [];
      assert ChunksFrom(l, next, size) == [];
    }
  }

  /**
   * slice_list_into_lists (tools/utilityFunctions.py:203-222): `n` lists
   * taken in order from the input, the first `len % n` of them one element
   * longer than `len / n`. A negative `n` gives no lists; zero makes
   * `len / n` raise ZeroDivisionError, which is `None` here.
   */
  method SliceListIntoLists<T>(input: seq<T>, n: int) returns (r: Option<seq<seq<T>>>)
    ensures r.None? <==> n == 0
    ensures n < 0 ==> r == Some([])
    ensures n > 0 ==> |r.value| == n
    ensures n > 0 ==> forall i :: 0 <= i < n ==>
      |r.value[i]| == |input| / n + (if i < |input| % n then 1 else 0)
    ensures n > 0 ==> Concat(r.value) == input
  {
    if n == 0 {
      return None;
    }
    var result := [];
    if n < 0 {
      return Some(result);
    }
    var sliceSize := |input| / n;
    var remain := |input| % n;
    var pos := 0;
    assert |input| == Times(n, sliceSize) + remain by {
      TimesIsProduct(n, sliceSize);
    }
    for i := 0 to n
      invariant |result| == i
      invariant remain == if i < |input| % n then |input| % n - i else 0
      invariant 0 <= pos && pos + Times(n - i, sliceSize) + remain == |input|
      invariant Concat(result) == input[..pos]
      invariant forall k :: 0 <= k < i ==> |result[k]| == sliceSize + (if k < |input| % n then 1 else 0)
    {
      var row := TakeRow(input, pos, sliceSize, remain > 0);
      pos := pos + |row|;
      if remain > 0 {
        remain := remain - 1;
      }
      ConcatSnoc(result, row);
      result := result + [row];
    }
    r := Some(result);
  }

  /** One row of slice_list_into_lists: `size` elements from `pos`, and one more while a remainder is left. */
  method TakeRow<T>(input: seq<T>, pos: nat, size: nat, extra: bool) returns (row: seq<T>)
    requires pos + size + (if extra then 1 else 0) <= |input|
    ensures row == input[pos..pos + size + (if extra then 1 else 0)]
  {
    row := [];
    for j := 0 to size
      invariant row == input[pos..pos + j]
    {
      row := row + [input[pos + j]];
    }
    if extra {
      row := row + [input[pos + size]];
    }
  }

  /** `k * s` by repeated addition, which the loop of slice_list_into_lists takes one row at a time. */
  function Times(k: nat, s: nat): nat
  {
    if k == 0 then 0 else Times(k - 1, s) + s
  }

  lemma {:induction false} TimesIsProduct(k: nat, s: nat)
    ensures Times(k, s) == k * s
  {
    if k > 0 {
      TimesIsProduct(k - 1, s);
    }
  }

  lemma MulStep(a: nat, b: nat)
    requires a >= 1
    ensures a * b == (a - 1) * b + b && (a - 1) * b >= 0
  {
  }

  // ------------------------------------------------------------------ paths

  /** A string with at least one character other than `/`. */
  predicate NotAllSlashes(s: string)
  {
    exists i :: 0 <= i < |s| && s[i] != '/'
  }

  /**
   * remove_slash_from_path (tools/utilityFunctions.py:286-296): strips every
   * trailing `/`; `None` passes through. An empty or all-slash path makes
   * `path[-1]` raise IndexError.
   */
  function RemoveSlash(path: Option<string>): (r: Option<string>)
    requires path.Some? ==> NotAllSlashes(path.value)
    ensures r.Some? <==> path.Some?
    ensures r.Some? ==> 0 < |r.value| <= |path.value| && r.value[|r.value| - 1] != '/'
    ensures r.Some? ==> r.value == path.value[..|r.value|]
    ensures r.Some? ==> forall i :: |r.value| <= i < |path.value| ==> path.value[i] == '/'
    decreases if path.Some? then |path.value| else 0
  {
    if path.Some? && path.value[|path.value| - 1] == '/' then
      var shorter := path.value[..|path.value| - 1];
      assert NotAllSlashes(shorter) by {
        var i :| 0 <= i < |path.value| && path.value[i] != '/';
        assert shorter[i] == path.value[i];
      }
      RemoveSlash(Some(shorter))
    else path
  }

  /** Removing trailing slashes twice is the same as once. */
  lemma RemoveSlashIdempotent(path: Option<string>)
    requires path.Some? ==> NotAllSlashes(path.value)
    ensures RemoveSlash(path).Some? ==> NotAllSlashes(RemoveSlash(path).value)
    ensures RemoveSlash(path).Some? ==> RemoveSlash(RemoveSlash(path)) == RemoveSlash(path)
  {
    var r := RemoveSlash(path);
    if r.Some? {
      assert r.value[|r.value| - 1] != '/';
    }
  }

  /**
   * remove_file_extension (tools/utilityFunctions.py:271-277): everything
   * before the last `.`; a name without a dot becomes the empty string.
   */
  function RemoveFileExtension(name: string): (r: string)
    ensures '.' !in name ==> r == ""
    ensures '.' in name ==> |r| < |name| && name[..|r|] == r && name[|r|] == '.' && '.' !in name[|r| + 1..]
  {
    var parts := Split(name, '.');
    var kept := parts[..|parts| - 1];
    JoinDropLast(name, '.');
    SplitFieldsClean(name, '.');
    Join(kept, '.')
  }

  /** `r` is the text of `s` before its last `sep` (empty without one), and `last` follows that `sep`. */
  predicate BeforeLast(s: string, sep: char, r: string, last: string)
  {
    && (sep !in s ==> r == "")
    && (sep in s ==> |r| < |s| && s[..|r|] == r && s[|r|] == sep && s[|r| + 1..] == last)
  }

  /** Joining all but the last field of a split gives the text before the last separator. */
  lemma {:induction false} JoinDropLast(s: string, sep: char)
    ensures var parts := Split(s, sep); BeforeLast(s, sep, Join(parts[..|parts| - 1], sep), parts[|parts| - 1])
    decreases |s|
  {
    if sep in s {
      var d := FirstIndex(s, sep);
      JoinDropLast(s[d + 1..], sep);
      if sep in s[d + 1..] {
        SplitMany(s[d + 1..], sep);
        assert Split(s, sep) == [s[..d]] + Split(s[d + 1..], sep);
        JoinDropLastStep(s, sep, d, Split(s[d + 1..], sep));
      } else {
        JoinDropLastOne(s, sep, d);
      }
    } else {
      assert Split(s, sep) == [s];
    }
  }

  /** With a further separator after the first, the first field and `sep` come before the rest's answer. */
  lemma JoinDropLastStep(s: string, sep: char, d: nat, tail: seq<string>)
    requires d < |s| && s[d] == sep && |tail| >= 2 && Split(s, sep) == [s[..d]] + tail
    requires BeforeLast(s[d + 1..], sep, Join(tail[..|tail| - 1], sep), tail[|tail| - 1])
    requires sep in s[d + 1..]
    ensures var parts := Split(s, sep); BeforeLast(s, sep, Join(parts[..|parts| - 1], sep), parts[|parts| - 1])
  {
    var rr := Join(tail[..|tail| - 1], sep);
    var parts := Split(s, sep);
    var r := Join(parts[..|parts| - 1], sep);
    assert r == s[..d] + [sep] + rr && parts[|parts| - 1] == tail[|tail| - 1] by {
      JoinFront(s[..d], tail, sep);
    }
    PrefixShape(s, sep, d, rr, r);
  }

  /** With a single separator, the text before it is the first field. */
  lemma JoinDropLastOne(s: string, sep: char, d: nat)
    requires sep in s && d == FirstIndex(s, sep) && sep !in s[d + 1..]
    ensures var parts := Split(s, sep); BeforeLast(s, sep, Join(parts[..|parts| - 1], sep), parts[|parts| - 1])
  {
    var parts := Split(s, sep);
    assert Split(s[d + 1..], sep) == [s[d + 1..]];
    assert parts == [s[..d]] + [s[d + 1..]];
    assert parts[..|parts| - 1] == [s[..d]];
  }

  /** A string with a separator splits into at least two fields. */
  lemma SplitMany(s: string, sep: char)
    requires sep in s
    ensures |Split(s, sep)| >= 2
  {
    var d := FirstIndex(s, sep);
    assert Split(s, sep) == [s[..d]] + Split(s[d + 1..], sep);
  }

  /** Dropping the last of `[first] + tail` and joining puts `first` and `sep` before the joined rest. */
  lemma JoinFront(first: string, tail: seq<string>, sep: char)
    requires |tail| >= 2
    ensures var parts := [first] + tail;
      Join(parts[..|parts| - 1], sep) == first + [sep] + Join(tail[..|tail| - 1], sep)
      && parts[|parts| - 1] == tail[|tail| - 1]
  {
    var parts := [first] + tail;
    assert parts[..|parts| - 1] == [first] + tail[..|tail| - 1];
    assert ([first] + tail[..|tail| - 1])[1..] == tail[..|tail| - 1];
  }

  /** Pure sequence arithmetic behind JoinDropLastStep. */
  lemma PrefixShape(s: string, sep: char, d: nat, rr: string, r: string)
    requires d < |s| && s[d] == sep && r == s[..d] + [sep] + rr
    requires |rr| < |s[d + 1..]| && s[d + 1..][..|rr|] == rr && s[d + 1..][|rr|] == sep
    ensures |r| < |s| && s[..|r|] == r && s[|r|] == sep && s[|r| + 1..] == s[d + 1..][|rr| + 1..]
  {
    assert s[..|r|] == s[..d] + [sep] + s[d + 1..][..|rr|];
  }

  /** A name listdir_no_hidden drops: one starting with a dot. */
  predicate Hidden(name: string)
  {
    StartsWith(name, ".")
  }

  /** listdir_no_hidden (tools/utilityFunctions.py:299-310), filter part: the names not starting with `.`, in order. */
  function Visible(names: seq<string>): (r: seq<string>)
    ensures |r| <= |names|
    decreases |names|
  {
    if names == [] then []
    else if Hidden(names[0]) then Visible(names[1..])
    else [names[0]] + Visible(names[1..])
  }

  /** The filtering loop of listdir_no_hidden, over the names `os.listdir` gave. */
  method ListdirNoHidden(names: seq<string>) returns (r: seq<string>)
    ensures r == Visible(names)
  {
    r := [];
    for k := 0 to |names|
      invariant r + Visible(names[k..]) == Visible(names)
    {
      assert names[k..][1..] == names[k + 1..];
      if !Hidden(names[k]) {
        r := r + [names[k]];
      }
    }
    assert names[|names|..] == [];
  }

  /** A name survives the filter iff it was listed and does not start with a dot. */
  lemma {:induction false} VisibleMembers(names: seq<string>, x: string)
    ensures x in Visible(names) <==> x in names && !Hidden(x)
    decreases |names|
  {
    if names != [] {
      VisibleMembers(names[1..], x);
      assert names == [names[0]] + names[1..];
    }
  }

  /** The filter keeps the visible names' relative order: filtering twice changes nothing. */
  lemma {:induction false} VisibleIdempotent(names: seq<string>)
    ensures Visible(Visible(names)) == Visible(names)
    decreases |names|
  {
    if names != [] {
      VisibleIdempotent(names[1..]);
      if !Hidden(names[0]) {
        var r := Visible(names);
        assert r[1..] == Visible(names[1..]);
      }
    }
  }

  /** Whether name `k` of the listing is visible and strips to `key`. */
  predicate ListsAt(names: seq<string>, k: int, key: string)
  {
    0 <= k < |names| && !Hidden(names[k]) && Strip(names[k]) == key
  }

  /** Whether some visible name of the listing strips to `key`. */
  ghost predicate Lists(names: seq<string>, key: string)
  {
    exists k :: ListsAt(names, k, key)
  }

  lemma ListsSnoc(names: seq<string>, key: string)
    requires names != []
    ensures var n := |names| - 1;
      Lists(names, key) <==> Lists(names[..n], key) || ListsAt(names, n, key)
  {
    var n := |names| - 1;
    var prefix := names[..n];
    if Lists(names, key) {
      var k :| ListsAt(names, k, key);
      if k < n {
        assert prefix[k] == names[k];
        assert ListsAt(prefix, k, key);
      }
    }
    if Lists(prefix, key) {
      var k :| ListsAt(prefix, k, key);
      assert prefix[k] == names[k];
      assert ListsAt(names, k, key);
    }
  }

  /**
   * generate_header_from_list_with_string (tools/utilityFunctions.py:312-313):
   * the labels `<s>_1 … <s>_{len(base)-1}`.
   */
  function GenerateHeader<T>(base: seq<T>, s: string): (r: seq<string>)
    ensures |r| == if |base| > 0 then |base| - 1 else 0
    ensures forall i :: 0 <= i < |r| ==> r[i] == s + "_" + NatToString(i + 1)
  {
    var n := if |base| > 0 then |base| - 1 else 0;
    seq(n, i requires 0 <= i < n => s + "_" + NatToString(i + 1))
  }

  /** The generated labels are pairwise distinct. */
  lemma GenerateHeaderDistinct<T>(base: seq<T>, s: string, i: nat, j: nat)
    requires i < j < |GenerateHeader(base, s)|
    ensures GenerateHeader(base, s)[i] != GenerateHeader(base, s)[j]
  {
    var r := GenerateHeader(base, s);
    var a, b := NatToString(i + 1), NatToString(j + 1);
    if r[i] == r[j] {
      assert (s + "_" + a)[|s| + 1..] == a;
      assert (s + "_" + b)[|s| + 1..] == b;
      NatToStringRoundTrip(i + 1);
      NatToStringRoundTrip(j + 1);
      assert false;
    }
  }

  // ------------------------------------------------------ multiscale names

  /** is_multiscale (tools/utilityFunctions.py:405-411): the name contains `multiscale`. */
  predicate IsMultiscale(name: string)
  {
    Contains(name, "multiscale")
  }

  /** The values of the all-digit fields, in order. */
  function DigitFields(fields: seq<string>): (r: seq<nat>)
    ensures |r| <= |fields|
    decreases |fields|
  {
    if fields == [] then []
    else if IsDigits(fields[0]) then [DigitsValue(fields[0])] + DigitFields(fields[1..])
    else DigitFields(fields[1..])
  }

  /**
   * parse_ms_params (tools/utilityFunctions.py:395-402): the first three
   * all-digit `_`-separated fields; fewer than three make the unpacking raise
   * ValueError (None here).
   */
  function ParseMsParams(name: string): (r: Option<(nat, nat, nat)>)
    ensures r.Some? <==> |DigitFields(Split(name, '_'))| >= 3
    ensures r.Some? ==> var d := DigitFields(Split(name, '_')); r.value == (d[0], d[1], d[2])
  {
    var d := Head(DigitFields(Split(name, '_')), 3);
    if |d| == 3 then Some((d[0], d[1], d[2])) else None
  }

  /** One field at the head of the list: its value comes first if it is all digits. */
  lemma DigitFieldsCons(t: string, rest: seq<string>)
    ensures DigitFields([t] + rest) == (if IsDigits(t) then [DigitsValue(t)] else []) + DigitFields(rest)
  {
    assert ([t] + rest)[1..] == rest;
  }

  /** A decimal spelling has no `_` in it. */
  lemma NoUnderscore(n: nat)
    ensures '_' !in NatToString(n)
  {
    var t := NatToString(n);
    assert forall i :: 0 <= i < |t| ==> t[i] != '_' by {
      forall i | 0 <= i < |t|
        ensures t[i] != '_'
      {
        assert IsDigit(t[i]);
      }
    }
  }

  /** The fields of a multiscale name's parameter part: `_start_<a>_end_<b>_step_<c>` and what follows. */
  function MsFields(a: nat, b: nat, c: nat, rest: seq<string>): seq<string>
  {
    ["", "start", NatToString(a), "end", NatToString(b), "step", NatToString(c)] + rest
  }

  lemma MsFieldsSplit(a: nat, b: nat, c: nat, rest: seq<string>)
    requires forall k :: 0 <= k < |rest| ==> '_' !in rest[k]
    ensures Split(Join(MsFields(a, b, c, rest), '_'), '_') == MsFields(a, b, c, rest)
  {
    var fields := MsFields(a, b, c, rest);
    NoUnderscore(a);
    NoUnderscore(b);
    NoUnderscore(c);
    forall k | 0 <= k < |fields|
      ensures '_' !in fields[k]
    {
      if k >= 7 {
        assert fields[k] == rest[k - 7];
      }
    }
    SplitJoin(fields, '_');
  }

  lemma MsFieldsDigits(a: nat, b: nat, c: nat, rest: seq<string>)
    ensures DigitFields(MsFields(a, b, c, rest)) == [a, b, c] + DigitFields(rest)
  {
    var f6 := [NatToString(c)] + rest;
    var f4 := [NatToString(b)] + (["step"] + f6);
    var f2 := [NatToString(a)] + (["end"] + f4);
    assert MsFields(a, b, c, rest) == [""] + (["start"] + f2);
    DigitFieldsNumber(c, rest);
    DigitFieldsWord("step", f6);
    DigitFieldsNumber(b, ["step"] + f6);
    DigitFieldsWord("end", f4);
    DigitFieldsNumber(a, ["end"] + f4);
    DigitFieldsWord("start", f2);
    DigitFieldsWord("", ["start"] + f2);
  }

  /** A decimal spelling at the head contributes its value. */
  lemma DigitFieldsNumber(n: nat, rest: seq<string>)
    ensures DigitFields([NatToString(n)] + rest) == [n] + DigitFields(rest)
  {
    NatToStringRoundTrip(n);
    DigitFieldsCons(NatToString(n), rest);
  }

  /** A field that is empty or starts with a non-digit contributes nothing. */
  lemma DigitFieldsWord(w: string, rest: seq<string>)
    requires w == [] || !IsDigit(w[0])
    ensures DigitFields([w] + rest) == DigitFields(rest)
  {
    DigitFieldsCons(w, rest);
  }

  /** The parameters written as `_start_<a>_end_<b>_step_<c>` followed by other fields are read back. */
  lemma {:induction false} ParseMsParamsRoundTrip(a: nat, b: nat, c: nat, rest: seq<string>)
    requires forall k :: 0 <= k < |rest| ==> '_' !in rest[k]
    ensures ParseMsParams(Join(MsFields(a, b, c, rest), '_')) == Some((a, b, c))
  {
    MsFieldsSplit(a, b, c, rest);
    MsFieldsDigits(a, b, c, rest);
  }

  /** The start of the last occurrence of `pat` at or before position `i`. */
  function LastOccurrence(s: string, pat: string, i: int): (r: Option<nat>)
    ensures r.Some? ==> r.value <= i && OccursAt(s, pat, r.value)
    ensures r.Some? ==> forall j :: r.value < j <= i ==> !OccursAt(s, pat, j)
    ensures r.None? ==> forall j :: 0 <= j <= i ==> !OccursAt(s, pat, j)
    decreases i + 1
  {
    if i < 0 then None
    else if OccursAt(s, pat, i) then Some(i)
    else LastOccurrence(s, pat, i - 1)
  }

  /** `s.rpartition(pat)[2]`: what follows the last occurrence of `pat` (all of `s` when absent). */
  function AfterLast(s: string, pat: string): (r: string)
    ensures Contains(s, pat) ==>
      exists k :: (OccursAt(s, pat, k) && r == s[k + |pat|..] && forall j :: k < j <= |s| - |pat| ==> !OccursAt(s, pat, j))
    ensures !Contains(s, pat) ==> r == s
  {
    match LastOccurrence(s, pat, |s| - |pat|)
    case Some(k) => s[k + |pat|..]
    case None => s
  }

  /**
   * fetch_ms_params (tools/utilityFunctions.py:380-392), on the base name:
   * the parameters after the last `multiscale` in a multiscale name, and
   * `(0, 0, 0)` for any other name.
   */
  function FetchMsParams(baseName: string): (r: Option<(nat, nat, nat)>)
    ensures !IsMultiscale(baseName) ==> r == Some((0, 0, 0))
    ensures IsMultiscale(baseName) ==> r == ParseMsParams(AfterLast(baseName, "multiscale"))
  {
    if IsMultiscale(baseName) then ParseMsParams(Tail(AfterLastParts(baseName, "multiscale"), Some(1))[0])
    else Some((0, 0, 0))
  }

  /** `s.rpartition(pat)` as its three parts. */
  function AfterLastParts(s: string, pat: string): (r: seq<string>)
    ensures |r| == 3 && r[2] == AfterLast(s, pat)
  {
    match LastOccurrence(s, pat, |s| - |pat|)
    case Some(k) => [s[..k], pat, s[k + |pat|..]]
    case None => ["", "", s]
  }
}
