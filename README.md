# tsanalyse core in Dafny

A model of the logic of tsanalyse, a set of Python 2 tools for heart-rate
time series. The model covers the part of the tools that sits between
reading a file and calling numpy, pandas or a compressor. Each core source
file is one Dafny module, and one more module, `Builtins`, holds the
Python 2 behaviour the tools rely on.

- **`Builtins`** (`builtins.dfy`) holds that Python 2 behaviour:
  - `int()` truncates and `round()` rounds half away from zero;
  - negative indexes and clamped slices;
  - `range`;
  - `float()` and `int()` on decimal tokens;
  - `str.split`, `str.strip`, `os.path.join` and `os.path.basename`.
- **`UtilityFunctions`** (`utility_functions.dfy`) holds the shared list and path helpers:
  - `head`, `tail`, `first`, `last` and the alternating merge;
  - fixed-size chunking and balanced slicing;
  - trailing-slash and extension removal;
  - the hidden-name filter and header labels;
  - parsing multiscale parameters out of result names.
- **`Partition`** (`partition.dfy`) cuts a record into blocks.
  - The sniffer decides whether the time column is cumulative or periodic.
  - Blocks are cut by lines or by elapsed time, forward or from the end.
  - The tiling loops number the blocks and attempt one trailing block.
  - The real-time accumulator gives each block its span.
  - The writer skips empty windows.
- **`Multiscale`** (`multiscale.dfy`) covers coarse-graining:
  - one scale of a series;
  - the loop that creates every scale directory and skips the ones that exist;
  - the per-file compression and entropy tables over the scales.
- **`Filter`** (`filter.dfy`) cleans one record and every file of a directory:
  - it skips headers and rescales values given in thousandths;
  - it can apply the limits 50 to 250.
- **`Entropy`** (`entropy.dfy`) covers the bookkeeping of `entropy()` and `calculate_std()`.
- **`EntropyCounts`** (`entropy_counts.dfy`) covers the counting phase of `apenv2`:
  - the nested loops over the `n_m` and `n_mp` arrays and the burned-index tables;
  - a proof that the counts end as its docstring says.
- **`SeparateBlocks`** (`separate_blocks.dfy`) covers the quartile and mean-and-deviation limits, and the marking of blocks below or above them.
- **`Compress`** (`compress.dfy`) covers three things:
  - the level clamp;
  - the compressor table;
  - the result table of `compress()`.
- **`Stv`** (`stv.dfy`) covers the short-term variability code of `tools/analysingSTV.py`.
  - `tools/stv_analysis.py` holds the same functions and is modelled by the same members.
  - It covers chunking into subsets and the conversion to inter-beat intervals.
  - It covers the sums of absolute differences and the Arduini, Dalton, Organ, Zugaiv and SD-subset structure.
  - It covers the algorithm dispatcher and the result header.
- **`FetalMaturation`** (`fetal_maturation.dfy`) covers week groups:
  - the fixed and the computed groups;
  - their labels;
  - the numbering of the per-group rows.

The model's conventions:
- The file system is a value: a map of written files and a set of directories.
- A directory listing is a sequence of names.
- Reading a file is a function parameter.
- A record is the list of its non-blank lines, each line split into tokens.
- Python exceptions the source does not catch become the `Err` case of a `Result`.
- Numbers are `real` and `int`.
- Loops in the source are methods with loop invariants. Each such method is proved equal to a function, and lemmas state what that function means.

Where the module docs and the code disagree, the model follows the code:
- `initial_indexes_lines` going forward returns `(starting_point, section)`. The end index is `section` itself, not `starting_point + section`. See `Partition.InitialLinesWindow`.
- The directory branch of `multiscale_entropy` reads its scales from `<input>_Scales` and ignores `scales_dir`. See `Multiscale.ScalesOf`.

## Model

| member | source | states |
|---|---|---|
| UtilityFunctions.Head | tools/utilityFunctions.py:63-71 | `head(v, n)` is the prefix `v[0:n]`, its length `n` clamped to the list |
| UtilityFunctions.Tail | tools/utilityFunctions.py:74-84 | `tail(v, n)` is always a suffix of `v`, of length `len(v)` minus the clamped slice start `len(v) - n` (default `n = len(v) - 1`) |
| UtilityFunctions.TailDropsFirst | tools/utilityFunctions.py:74-84 | without a count, tail drops exactly the first element; an empty list stays empty |
| UtilityFunctions.TailLast | tools/utilityFunctions.py:74-84 | for `n <= len(v)`, tail gives exactly the last `n` elements, and `head(v, len - n) + tail(v, n) == v` |
| UtilityFunctions.TailOverlong | tools/utilityFunctions.py:81-84 | as written, a count between `len(v)` and `2 len(v)` gives `n - len(v)` elements, fewer than the whole list |
| UtilityFunctions.TailOverlongExample | tools/utilityFunctions.py:81-84 | as written, `tail([1, 2, 3], 5) == [2, 3]` |
| UtilityFunctions.TailClamped | tools/utilityFunctions.py:74-84 | corrected tail: the last `min(n, len)` elements, a suffix; without a count the same as tail |
| UtilityFunctions.TailClampedAgrees | tools/utilityFunctions.py:74-84 | the corrected tail equals the written one whenever `n <= len(v)` |
| UtilityFunctions.First | tools/utilityFunctions.py:87-93 | `first(v)` is `v[0]` |
| UtilityFunctions.Last | tools/utilityFunctions.py:108-116 | `last(v)` is `v[len - 1]` |
| UtilityFunctions.AlternateMerge | tools/utilityFunctions.py:143-152 | the merge alternates `a[0], b[0], a[1], …`, stopping at the first exhausted list: `2 len(a)` elements when `a` is not longer, else `2 len(b) + 1` |
| UtilityFunctions.AlternateMergeInverse | tools/utilityFunctions.py:143-152 | for equal lengths, the even positions of the merge are `a` and the odd ones `b` |
| UtilityFunctions.AlternateMergeExample | tools/utilityFunctions.py:146-147 | the documented example `[1,2,3]`, `[4,5,6]` gives `[1,4,2,5,3,6]` |
| UtilityFunctions.ListOfListsWithSize | tools/utilityFunctions.py:191-200 | chunks are non-empty and at most `size` long, all but the last exactly `size`; a negative size gives no chunks |
| UtilityFunctions.ChunksCount | tools/utilityFunctions.py:191-200 | there are `ceil(len / size)` chunks |
| UtilityFunctions.ChunksCover | tools/utilityFunctions.py:191-200 | the chunks concatenate back to the input |
| UtilityFunctions.SliceListIntoLists | tools/utilityFunctions.py:203-222 | ZeroDivisionError iff `n` is zero; otherwise exactly `n` lists, list `i` of length `len / n` plus one for `i < len % n`, concatenating to the input; negative `n` gives none |
| UtilityFunctions.RemoveSlash | tools/utilityFunctions.py:286-296 | `None` passes through; otherwise the result is a non-empty prefix without a trailing `/`, and only `/` characters were removed |
| UtilityFunctions.RemoveSlashIdempotent | tools/utilityFunctions.py:286-296 | removing trailing slashes twice gives the same as once |
| UtilityFunctions.RemoveFileExtension | tools/utilityFunctions.py:271-277 | the text before the last `.`; a name without a dot becomes the empty string |
| UtilityFunctions.JoinDropLast | tools/utilityFunctions.py:271-277 | joining all fields but the last of `split('.')` gives the text before the last dot, and the last field is what follows it |
| UtilityFunctions.ListdirNoHidden | tools/utilityFunctions.py:299-310 | the loop returns exactly the filtered listing `Visible(names)` |
| UtilityFunctions.VisibleMembers | tools/utilityFunctions.py:305-309 | a name is kept iff it was listed and does not start with `.` |
| UtilityFunctions.VisibleIdempotent | tools/utilityFunctions.py:305-309 | filtering the filtered listing changes nothing |
| UtilityFunctions.GenerateHeader | tools/utilityFunctions.py:312-313 | `len(base) - 1` labels, label `i` being `<s>_<i + 1>` |
| UtilityFunctions.GenerateHeaderDistinct | tools/utilityFunctions.py:312-313 | the generated labels are pairwise distinct |
| UtilityFunctions.ParseMsParams | tools/utilityFunctions.py:395-402 | defined iff the name has at least three all-digit `_` fields, and then it is the first three of them |
| UtilityFunctions.ParseMsParamsRoundTrip | tools/utilityFunctions.py:395-402 | a name `_start_<a>_end_<b>_step_<c>…` is read back as `(a, b, c)` |
| UtilityFunctions.AfterLast | tools/utilityFunctions.py:388 | what `rpartition` leaves after the last occurrence of the pattern, or the whole string without one |
| UtilityFunctions.FetchMsParams | tools/utilityFunctions.py:380-392 | a name that is not multiscale gives `(0, 0, 0)`; a multiscale name gives the parameters parsed after the last `multiscale` |
| Compress.ClampLevel | tools/compress.py:116-119 | a level above the maximum becomes the maximum, one below the minimum the minimum; a missing level compares below every number and becomes the minimum |
| Compress.ClampLevelInRange | tools/compress.py:116-119 | the clamped level lies in `[min, max]`, an in-range level is unchanged, and clamping twice is clamping once |
| Compress.SetLevel | tools/compress.py:477-488 | a missing or zero level, or one above the maximum, becomes the maximum; one below the minimum the minimum; any other is kept |
| Compress.SetLevelInRange | tools/compress.py:477-488 | set_level's result lies in `[min, max]`, and compress's clamp leaves it unchanged |
| Compress.SetLevelAgreesWithClamp | tools/compress.py:116-119 | for a given non-zero level, set_level and compress's clamp agree |
| Compress.SearchPath | tools/compress.py:407-409 | `PATH` split on `;`, or on `:` when that gives a single entry |
| Compress.SearchPathColons | tools/compress.py:407-409 | a path without `;` is searched as its `:`-separated directories, which join back to it |
| Compress.TestCompressors | tools/compress.py:401-418 | gzip (1, 9), bzip2 (1, 9) and brotli (1, 11) always; lzma (6, 6) iff it imports; each external compressor iff found on the search path, with its own range; nothing else |
| Compress.Search | tools/compress.py:411-415 | the inner loop finds the executable iff some search directory holds `name` or `name.exe` |
| Compress.DirectoryTableKeys | tools/compress.py:121-127 | on a directory, the keys are exactly the stripped non-hidden names |
| Compress.DirectoryTableValues | tools/compress.py:121-127 | each entry is the compressor's answer for that file joined to the directory |
| Compress.Compress | tools/compress.py:89-131 | the method builds exactly `CompressTable`: unknown compressor raises, otherwise the table at the clamped level |
| Compress.FileKey | tools/compress.py:128-130 | on a single file the only key is the stripped path, `/` characters included |
| Entropy.Lookup | tools/entropy.py:81-83 | a dictionary lookup succeeds iff the key is present, and returns a value stored under it |
| Entropy.Estimate | tools/entropy.py:152-152 | every estimator reports as `points` the number of values in the file |
| Entropy.ComputeEntropy | tools/entropy.py:64-91 | the loop builds exactly `EntropyTable`: an unknown algorithm raises, a directory keys by stripped name with the tolerance looked up by listed name, a file keys by base name with the first tolerance |
| Entropy.DirectoryAbort | tools/entropy.py:80-84 | once a visible name has no tolerance, the whole directory call fails with that error |
| Entropy.FileKeyIsBasename | tools/entropy.py:85-89 | a single file `dir/name` is stored under `name` alone, with the first tolerance of the dictionary |
| Entropy.DirectoryTableKeys | tools/entropy.py:79-84 | a successful directory table is keyed by exactly the stripped visible names |
| Entropy.StdTable | tools/entropy.py:94-110 | on a single file, calculate_std keys the deviation by the path as given |
| Entropy.CalculateStd | tools/entropy.py:94-110 | the loop builds exactly `StdTable` |
| Entropy.StdDirectoryKeys | tools/entropy.py:103-107 | a directory's keys are the visible names exactly as listed, not stripped |
| Entropy.StdDirectoryValue | tools/entropy.py:103-107 | each entry is the deviation of the values of that file joined to the directory |
| EntropyCounts.DifferMeaning | tools/entropy.py:260-274 | the downward scan finds a difference iff some offset below the window length is further apart than the tolerance |
| EntropyCounts.DifferSymmetric | tools/entropy.py:224-225 | whether two windows differ does not depend on their order, so testing only `i < j` suffices |
| EntropyCounts.StartState | tools/entropy.py:250-252 | the start `n_m = [N-m+1]*(N-m+1)`, `n_mp = [N-m]*(N-m)`, empty burned sets is the loop state before the first row, nothing subtracted |
| EntropyCounts.SkipBurnt | tools/entropy.py:258-259 | skipping a burned column changes no count and keeps the loop state |
| EntropyCounts.SkipClose | tools/entropy.py:260-279 | a pair close at every offset, in both lengths, changes no count |
| EntropyCounts.CountLonger | tools/entropy.py:276-279 | a pair close over `m` offsets but not at offset `m` is subtracted from `n_mp` only, once for each window |
| EntropyCounts.NotBurntAlong | tools/entropy.py:262-272 | burned pairs run down whole diagonals: a pair not burned in row `i` is not burned further down its diagonal |
| EntropyCounts.BurnStep | tools/entropy.py:264-271 | one pass of the inner loop decrements `n_m`, `n_mp` and burns the pair exactly under the source's three index guards, and changes nothing else |
| EntropyCounts.Burn | tools/entropy.py:262-272 | burning the diagonal below a differing offset subtracts each differing pair inside the tables exactly once, keeping the loop state for the next column |
| EntropyCounts.BurnPass | tools/entropy.py:263-272 | one pass of the `while mabove >= 0` loop keeps the loop state and moves the run one offset down |
| EntropyCounts.Scan | tools/entropy.py:259-274 | the scan returns the highest offset whose values are further apart than the tolerance, or -1 when none is |
| EntropyCounts.Longer | tools/entropy.py:276-279 | the post-scan test keeps the loop state, subtracting from `n_mp` only when the longer windows differ |
| EntropyCounts.Pair | tools/entropy.py:256-279 | the body of the `for j` loop for an unburned column keeps the loop state for the next column |
| EntropyCounts.Row | tools/entropy.py:254-279 | the `for j` loop over row `i` keeps the loop state through the whole row |
| EntropyCounts.Rows | tools/entropy.py:252-279 | the `for i` loop, dropping the previous row's burned set, ends in the final loop state |
| EntropyCounts.Final | tools/entropy.py:250-279 | at the end, each `n_m[k]` is the number of windows less the windows differing from window `k`, and the same for `n_mp` with length `m + 1` |
| EntropyCounts.CountMatches | tools/entropy.py:250-279 | the counting phase returns `n_m` and `n_mp` of lengths `N-m+1` and `N-m`, each count equal to the windows less those differing from window `k` |
| EntropyCounts.SelfClose | tools/entropy.py:205-206 | with a non-negative tolerance a window never differs from itself, the diagonal of the docstring's matrix being all ones |
| EntropyCounts.RowSum | tools/entropy.py:218-222 | the final count equals the number of windows within the tolerance of window `k`, the row sum of Crm, `k` itself included |
| EntropyCounts.MatchesSymmetric | tools/entropy.py:216-217 | the matrix Crm is symmetric |
| EntropyCounts.Ratios | tools/entropy.py:281-282 | `c_m`, `c_mp` are the counts divided by the number of windows |
| EntropyCounts.CountInRange | tools/entropy.py:250-279 | with a non-negative tolerance every final count lies between 1 and the number of windows |
| EntropyCounts.RatiosInUnit | tools/entropy.py:281-285 | hence every ratio lies in (0, 1], so the logarithms taken next are defined |
| Multiscale.CreateScale | tools/multiscale.py:257-271 | the loop writes exactly `ScaleSeries`: the points of the consecutive whole windows of `scale` values, front to back |
| Multiscale.ScaleSeriesLength | tools/multiscale.py:263-271 | a series of `n` values gives `n / scale` points; only the last `n % scale` values are dropped, nothing is padded |
| Multiscale.ScaleSeriesAt | tools/multiscale.py:263-271 | point `k` lies wholly inside the input and is the (multiplied, rounded) mean of window `[k*scale, (k+1)*scale)` |
| Multiscale.ScaleOneIdentity | tools/multiscale.py:263-270 | at scale 1 with `mul_order == -1` and no rounding every value is written back unchanged |
| Multiscale.DecimalString | tools/multiscale.py:93 | `"%d" % n` is non-empty and ends in a digit |
| Multiscale.ScalePathSlash | tools/multiscale.py:147 | the path of a file of a scale always holds a `/` that survives strip() |
| Multiscale.ScalePathShape | tools/multiscale.py:147 | a name without `/` sits directly in the scale directory and is the base name of its path |
| Multiscale.CreateScales | tools/multiscale.py:92-113 | a zero step raises ValueError before anything is written; any other step leaves exactly the disk `Run` gives over `range(start, stop, step)`, counting up or down |
| Multiscale.ScalesPositiveWhen | tools/multiscale.py:92 | a positive step from a positive start, or a negative step down to a non-negative stop, only visits the positive scales on which create_scale terminates |
| Multiscale.CreateOneScale | tools/multiscale.py:93-113 | one turn skips a scale whose directory exists, otherwise creates it and writes the scale of every input file into it |
| Multiscale.WriteScale | tools/multiscale.py:100-107 | the inner loop writes the scale of each listed name, in listing order |
| Multiscale.ScaleStepDirs | tools/multiscale.py:93-99 | one turn adds its scale's directory and removes none |
| Multiscale.RunMakesDirs | tools/multiscale.py:92-99 | create_scales never removes a directory and leaves every visited scale's directory in place |
| Multiscale.RunSkipsExisting | tools/multiscale.py:94-99 | when every scale's directory exists, create_scales changes nothing |
| Multiscale.RunIdempotent | tools/multiscale.py:92-113 | a second run over the same scales changes nothing |
| Multiscale.ScaleStepFile | tools/multiscale.py:108-113 | a new scale of one file adds its directory and exactly one file, under the input's base name, holding its scaled series; every other file is untouched |
| Multiscale.WriteAllKeys | tools/multiscale.py:100-107 | a new scale of a directory writes a file for exactly the visible names, each under its base name, and keeps the files already there |
| Multiscale.TableFromOk | tools/multiscale.py:140-145 | when every name's row can be built, the table maps exactly the names, each to its row |
| Multiscale.RowFromAll | tools/multiscale.py:145-156 | when each scale yields its fields, the row is those fields concatenated in scale order |
| Multiscale.Fields | tools/multiscale.py:151-156 | each scale adds exactly `Width` fields: two sizes plus the rate and the time when asked for |
| Multiscale.CompressionLookupMisses | tools/multiscale.py:147-151 | as written, the answer of compress is looked up under a key it never uses, so every lookup fails |
| Multiscale.CompressionAsWrittenFails | tools/multiscale.py:140-178 | as written, multiscale_compression raises whenever there is a scale and a first name (listed names have no `/`) |
| Multiscale.CompressionLookupHits | tools/multiscale.py:147-156 | looked up under compress's own key, each scale yields the fields of the compressor's answer for that scale's file |
| Multiscale.CompressionRowCorrected | tools/multiscale.py:143-156 | corrected, a row is the fields of every scale in scale order, `Width` fields per scale |
| Multiscale.CompressionTableOk | tools/multiscale.py:140-156 | corrected, a table over any names maps exactly those names, each to its row |
| Multiscale.CompressionCorrected | tools/multiscale.py:140-178 | corrected, the table never fails, maps exactly the visible names (or the base name of the file), each to the fields of every scale in order |
| Multiscale.ZeroStepTable | tools/multiscale.py:140-145 | when `range` raises inside the loop over names, the table is empty if there is no name and ValueError otherwise |
| Multiscale.FileList | tools/multiscale.py:140-162 | the names the table loops over are the visible names of a directory, or the one file's base name |
| Multiscale.MultiscaleCompression | tools/multiscale.py:140-178 | a zero step gives `ZeroStepTable`; otherwise the corrected loop builds exactly `CompressionTable` over `range(start, stop, step)`, for a negative step as well |
| Multiscale.CompressionRow | tools/multiscale.py:143-156 | the inner loop builds exactly one file's corrected row |
| Multiscale.MultiscaleEntropy | tools/multiscale.py:202-232 | a zero step gives `ZeroStepTable`; otherwise exactly `EntropyTable` over `range(start, stop, step)`, for a negative step as well |
| Multiscale.EntropyRows | tools/multiscale.py:202-232 | over a range that does not raise, the tolerance computation and the loops build exactly `EntropyTable` |
| Multiscale.ComputeTolerances | tools/multiscale.py:205-221 | the tolerances are the start scale's deviations times the tolerance asked for |
| Multiscale.EntropyRow | tools/multiscale.py:207-215 | the inner loop builds exactly one file's corrected row |
| Multiscale.EntropyAt | tools/multiscale.py:207-215 | one scale of one file, lookup corrected: MissingKey without a tolerance, EntropyFailed when entropy fails, otherwise the entropy under the base-name key |
| Multiscale.EntropyLookupMisses | tools/multiscale.py:210-215 | as written, a directory's answer is looked up under the whole path while entropy keys it by base name, so the lookup fails |
| Multiscale.EntropyAsWrittenFails | tools/multiscale.py:203-215 | as written, the directory branch of multiscale_entropy raises whenever there is a scale and a visible name |
| Multiscale.DirectoryToleranceOf | tools/multiscale.py:205-206 | every visible name of the start scale has a tolerance: its deviation times the tolerance asked for |
| Multiscale.FileToleranceOf | tools/multiscale.py:217-221 | a single file has exactly one tolerance, under its base name |
| Multiscale.EntropyLookupHits | tools/multiscale.py:209-231 | corrected, each scale yields the entropy of that scale's file with the name's tolerance |
| Multiscale.EntropyRowCorrected | tools/multiscale.py:207-215 | corrected, entry `k` of a row is the entropy at scale `k`, one value per scale |
| Multiscale.EntropyTableOk | tools/multiscale.py:207-215 | corrected, a table over names with tolerances maps exactly those names, each to its row |
| Multiscale.EntropyCorrected | tools/multiscale.py:202-215 | corrected, the directory table maps exactly the visible names; entry `k` is the entropy at scale `k` with the start scale's tolerance |
| Multiscale.EntropyFileLookup | tools/multiscale.py:224-231 | for a single file the lookup as written is already the corrected one |
| Multiscale.EntropyFileEntry | tools/multiscale.py:224-231 | as written, each scale of a single file yields the entropy of that scale's file |
| Multiscale.EntropyFileRowAsWritten | tools/multiscale.py:223-231 | as written, a single file's row equals the corrected row |
| Multiscale.EntropyFileTable | tools/multiscale.py:216-232 | for a single file, as written and corrected agree: one row under the base name, entry `k` the entropy at scale `k` |
| Partition.TwoColumnReadable | tools/partition.py:190-197 | a two-column line is always readable by get_p_rtime, and its time is the first column |
| Partition.GetPRTime | tools/partition.py:181-198 | the loop computes exactly the fold `RealTime` of the lines |
| Partition.CumulativeRealTime | tools/partition.py:194-195 | with a cumulative column the real time is the last line's stamp, or `real_s` for no lines |
| Partition.PeriodicRealTime | tools/partition.py:196-197 | with a periodic column the real time is `real_s` plus the sum of the intervals |
| Partition.CountStamps | tools/partition.py:407-423 | the counts hold exactly the time tokens of the sample, each with its number of occurrences; `increasing` holds iff every stamp beats all earlier ones |
| Partition.ModalStamp | tools/partition.py:429-433 | the chosen stamp is a key of the counts and no other key is more frequent |
| Partition.Sniffer | tools/partition.py:391-434 | no time column gives (False, 0); strictly increasing stamps give (True, the first stamp, or the last from the end); otherwise (False, a most frequent stamp) |
| Partition.InitialLinesWindow | tools/partition.py:151-166 | for whole numbers the first window is `[start, section)`, or `[total - section, total - start)` from the end: `section - start` lines either way |
| Partition.NextLinesShift | tools/partition.py:169-178 | with non-negative indexes and gap, the next window is the old one moved by the whole part of the gap, with the same width |
| Partition.NextLinesIntegralShift | tools/partition.py:169-178 | a whole-number gap moves both ends by exactly the gap |
| Partition.ScanOffset | tools/partition.py:304-319 | the offset loop only moves `aux` away from its start and stays inside the lines; its only failure is an IndexError going forward |
| Partition.ScanSection | tools/partition.py:321-336 | the section loop ends at the last index it read or keeps the old edge, never at `len(lines)` |
| Partition.InitialTimeBounds | tools/partition.py:289-338 | forward, the window starts at a real line and ends after it (or at 0); from the end both indexes are negative; the only failure is IndexError forward |
| Partition.PeriodicOffset | tools/partition.py:302-319 | periodic mode stops at the first line whose intervals reach the offset in milliseconds, and fails iff no line does |
| Partition.InitialIndexesTime | tools/partition.py:289-338 | the two loops compute exactly the window `InitialTime` |
| Partition.AdvanceInit | tools/partition.py:268-276 | the start loop only moves forward and stays inside the lines; its only failure is IndexError |
| Partition.AdvanceEnd | tools/partition.py:278-284 | the end loop only moves forward and stops at `len(lines)` at the latest |
| Partition.NextTime | tools/partition.py:261-286 | the next window never moves back, starts inside the lines and ends at `len(lines)` at the latest; the only failure is IndexError |
| Partition.NextIndexesTime | tools/partition.py:261-286 | the two loops compute exactly the window `NextTime` |
| Partition.Rows | tools/partition.py:373-382 | `[i, f)` gives `f - i` rows, row `k` the second column (or the stripped line) of line `i + k`, Python indexing |
| Partition.WritePartition | tools/partition.py:361-383 | an empty or inverted window writes nothing; one reaching outside the lines raises IndexError; otherwise exactly its rows are written |
| Partition.WriteBlocks | tools/partition.py:128-146 | a tiling that completes reports one span per attempt, in attempt order |
| Partition.TimeRun | tools/partition.py:232-252 | the time tiling attempts at least the first window, first |
| Partition.TimeStep | tools/partition.py:241-248 | a pass that moves on never moves back and changes the window; one that breaks keeps the old window |
| Partition.LineRun | tools/partition.py:128-143 | the line tiling ends with the trailing block, which reaches `len(lines)` |
| Partition.NextLineAttempt | tools/partition.py:133-140 | each pass of the line loop moves the end of the window forward |
| Partition.StepLines | tools/partition.py:133-140 | one pass computes exactly the next attempt |
| Partition.TileByLines | tools/partition.py:122-143 | the line loop writes exactly the blocks of `LineRun`, numbered from 1 |
| Partition.FirstSpan | tools/partition.py:119-120 | the real times of the first window, up to its start line and up to its end |
| Partition.WriteSingleBlock | tools/partition.py:144-146 | a single cut writes one unnumbered file for the first window |
| Partition.PartitionByLines | tools/partition.py:101-148 | the sniffer's verdict on the sample, and exactly the blocks and spans `LineBlocks` gives |
| Partition.StepTime | tools/partition.py:241-248 | one pass computes exactly `TimeStep` |
| Partition.TileByTime | tools/partition.py:226-252 | the time loop writes exactly the blocks of `TimeRun`, numbered from 1 |
| Partition.PartitionByTime | tools/partition.py:201-258 | the sniffer's verdict on the sample, and exactly the blocks and spans `TimeBlocks` gives |
| Partition.LineRunInside | tools/partition.py:128-143 | every line block but the trailing one ends inside the record; the first is the first attempt |
| Partition.LineRunShift | tools/partition.py:169-178 | with a whole-number gap each block starts `gap` lines after the one before and, unless trailing, ends `gap` lines later |
| Partition.LineRunWidth | tools/partition.py:169-178 | with a whole-number gap every block but the trailing one is as wide as the first |
| Partition.TimeRunInside | tools/partition.py:232-252 | every window of a time tiling stays within `[-len(lines), len(lines)]` |
| Partition.TimeRunProper | tools/partition.py:232 | every window of a time tiling but the last passed the loop test `init < end < len(lines)` |
| Partition.TimeRunMonotone | tools/partition.py:261-286 | time windows never move back: both ends of window `i + 1` are at or after those of window `i` |
| Partition.TimeRunOverran | tools/partition.py:242-252 | a tiling that stops on IndexError writes its last window twice: the trailing block keeps the old indexes |
| Partition.WriteBlocksNumbering | tools/partition.py:128-143 | every written block file is numbered within the attempts and holds the rows of the attempt its number names |
| Partition.WriteBlocksIncreasing | tools/partition.py:128-143 | block numbers increase strictly along the written files |
| Partition.WriteBlocksComplete | tools/partition.py:368-372 | every attempt with a non-empty window gets its own block file |
| Partition.SingleCutSpans | tools/partition.py:144-146 | without full-file tiling a file reports at most one span and writes at most one block |
| Partition.PartitionFile | tools/partition.py:84-98 | line mode or time mode, with the sniffer's verdict on the sample |
| Partition.Partition | tools/partition.py:55-79 | a directory gives `DirectoryBlocks` with each visible file sniffed; a single file is keyed by its base name |
| Partition.PartitionDirectory | tools/partition.py:69-74 | the directory loop builds exactly `DirectoryBlocks`, one sniffed verdict per visible file |
| Partition.DirectoryAbort | tools/partition.py:72-74 | once a file raises, the directory call raises the same error whatever later files hold |
| Partition.SingleCutTableEmpty | tools/partition.py:387-388 | without full-file tiling every directory table counts as empty for is_block_time_table_empty |
| Filter.CleanFile | tools/filter.py:85-112 | the loop over the lines writes exactly `Clean` of the file, or raises the first line's error |
| Filter.CleanFromPieces | tools/filter.py:90-112 | cleaning fails iff some line raises; otherwise the output is each line's contribution, in input order, after what was already written |
| Filter.CleanIsPieces | tools/filter.py:88-112 | a whole file cleans iff no line raises, and then its output is the lines' contributions in input order |
| Filter.ConcatPiecesLength | tools/filter.py:90-112 | the output has one line per contributing input line, never more lines than the input |
| Filter.CountEmittedIs | tools/filter.py:95-112 | headers never yield a line; without limits every data line does; with limits every data line but the out-of-limit ones does |
| Filter.CleanLength | tools/filter.py:90-112 | the output is never longer than the input, and its length is the number of data lines, less the out-of-limit ones when the limits apply |
| Filter.PlantedLosesTwo | pytests/FilterUnit_test.py:47-61 | a record of data lines with exactly two out-of-limit values loses exactly two lines when the limits apply |
| Filter.EmittedShape | tools/filter.py:103-112 | every output line has its time token iff it is kept, that token is the line's first, and with the limits its value lies in [50, 250] |
| Filter.PlantedExample | tools/filter.py:95-112 | a header, an in-limit value, one above and one below the limits: only the two in-limit values remain, in order |
| Filter.CleanShape | tools/filter.py:103-112 | every line of a clean run's output has its time token iff it is kept, and with the limits its value lies in [50, 250] |
| Filter.RescaledMeaning | tools/filter.py:100-102 | a value below 1000 is kept; from 1000 on it becomes the nearest whole number of thousands, at least 1 |
| Filter.RunFilter | tools/filter.py:61-72 | the loop over the listed names writes exactly `DsFilter` |
| Filter.FilterFromOk | tools/filter.py:64-67 | a directory run succeeds iff every listed file cleans |
| Filter.FilterFromKeys | tools/filter.py:64-67 | in a successful run a path is written iff it was already or it is the destination of a listed name |
| Filter.FilterFromValues | tools/filter.py:64-67 | in a successful run what a new path holds is the cleaning of a listed file with that destination |
| Filter.DirectoryWrites | tools/filter.py:61-67 | on a directory, one cleaned file per visible name under its stripped name in the destination and nothing else; the run fails iff some visible file does not clean |
| SeparateBlocks.Insert | tools/separate_blocks.py:155 | inserting one element lengthens the list by one |
| SeparateBlocks.InsertSorted | tools/separate_blocks.py:155 | inserting into an ordered list keeps it ordered |
| SeparateBlocks.InsertPermutes | tools/separate_blocks.py:155 | inserting adds exactly that element to the multiset |
| SeparateBlocks.SortSpec | tools/separate_blocks.py:155 | `sorted` gives an ordered permutation of its input |
| SeparateBlocks.PositionBounds | tools/separate_blocks.py:156-173 | for two or more sizes every percentile index is in range: a whole position is at most `n`, a fractional one below `n` |
| SeparateBlocks.MidpointBetween | tools/separate_blocks.py:159-173 | the floor-divided midpoint of two ordered values lies between them |
| SeparateBlocks.PercentileBetween | tools/separate_blocks.py:156-173 | a percentile lies between the ordered values on either side of its position |
| SeparateBlocks.PercentileMonotone | tools/separate_blocks.py:155-173 | on an ordered list a higher percentile is never smaller |
| SeparateBlocks.OutliersOrdered | tools/separate_blocks.py:141-180 | the outlier limits are symmetric about the median and the lower never exceeds the upper |
| SeparateBlocks.QuartilesInRange | tools/separate_blocks.py:155-173 | the quartiles lie between the smallest and the largest size, in order p25 ≤ p50 ≤ p75 |
| SeparateBlocks.MeanStdSymmetric | tools/separate_blocks.py:122-138 | the limits are symmetric about the mean, twice the deviation apart, and ordered iff the deviation is non-negative |
| SeparateBlocks.Sizes | tools/separate_blocks.py:101 | the compressed sizes, one per block, in block order |
| SeparateBlocks.MarkBlocks | tools/separate_blocks.py:101-119 | the loop over the blocks computes exactly `ApplyMetricFile` |
| SeparateBlocks.MarkFromBelow | tools/separate_blocks.py:109-115 | a number is marked below iff it was already or some block with that number is below the lower limit; a new mark holds that block's rounded times |
| SeparateBlocks.MarkFromAbove | tools/separate_blocks.py:109-117 | a number is marked above iff it was already or some block with that number is above the upper limit and not below the lower; a new mark holds its rounded times |
| SeparateBlocks.Classification | tools/separate_blocks.py:81-119 | with limits, a block is marked below iff under the lower limit, above iff over the upper and not under the lower, never both when numbers are distinct, each mark holding its rounded times |
| SeparateBlocks.MarkFromNumbers | tools/separate_blocks.py:111 | in a successful marking run every block name ends in a block number |
| SeparateBlocks.RunApplyMetric | tools/separate_blocks.py:64-76 | the loop over the files computes exactly `ApplyMetric` |
| SeparateBlocks.ApplyFromKeys | tools/separate_blocks.py:72-75 | in a successful loop both tables gain exactly the file names |
| SeparateBlocks.ApplyMetricKeys | tools/separate_blocks.py:50-76 | apply_metric returns two tables keyed by exactly the input file names |
| Stv.Interbeat | tools/analysingSTV.py:61-67 | converting succeeds iff no rate is zero; then interval `i` is `60000 / rate[i]`, one per rate; otherwise ZeroDivisionError |
| Stv.InterbeatAll | tools/analysingSTV.py:89 | every subset is converted, one list per subset, or the call fails when some subset has a zero rate |
| Stv.KeepLength | tools/analysingSTV.py:88 | the filter keeps only lists whose length equals `samples`, never more lists than it was given |
| Stv.FullBlocksSpec | tools/analysingSTV.py:85-88 | the kept chunks all have `k` samples and concatenate to the longest prefix whose length is a multiple of `k`; fewer than `k` samples are left over |
| Stv.KeepFullIsWhole | tools/analysingSTV.py:85-88 | keeping the chunks of length `k` gives exactly the consecutive full chunks |
| Stv.ListPreparationFull | tools/analysingSTV.py:71-92 | when `duration * frequency` is a whole `k ≥ 1`, the preparation converts exactly the full chunks of `k` samples and fails iff one holds a zero rate |
| Stv.LoopResultForParametrizedSum | tools/analysingSTV.py:95-99 | the accumulating loop computes exactly `ParametrizedSum` |
| Stv.LoopResultForParametrizedSumOrderInverted | tools/analysingSTV.py:102-106 | the accumulating loop computes exactly `InvertedSum` |
| Stv.InvertedIsForward | tools/analysingSTV.py:95-106 | the order-inverted sum over `[start, end)` equals the forward sum over `[start - 1, end - 1)` |
| Stv.Variation | tools/analysingSTV.py:95-99 | the total variation of a list is never negative |
| Stv.ParametrizedSumIsVariation | tools/analysingSTV.py:95-99 | the sum over `[start, end)` is the total variation of `l[start..end]` divided by the divisor |
| Stv.ParametrizedSumNonNegative | tools/analysingSTV.py:95-99 | with a positive divisor the sum is never negative |
| Stv.MeanScaledAll | tools/analysingSTV.py:123-156 | every subset yields its mean-scaled sum, one per subset, or some subset's failure fails the map |
| Stv.ArduiniIsVariation | tools/analysingSTV.py:119 | each Arduini value is the subset's total variation over `len - 1`, never negative |
| Stv.DaltonIsForward | tools/analysingSTV.py:142 | each Dalton value is the forward sum halved, i.e. half the subset's total variation |
| Stv.FullBlocksElement | tools/analysingSTV.py:85-88 | every sample of a kept chunk is a sample of the record |
| Stv.PreparedMinutes | tools/analysingSTV.py:71-92 | at a positive whole frequency without zero rates, one list of `60 * frequency` intervals per full chunk |
| Stv.StvArduiniSpec | tools/analysingSTV.py:109-120 | one value per prepared subset: its total variation over `60 * frequency - 1` |
| Stv.PreparedNonEmpty | tools/analysingSTV.py:71-92 | every subset of a successful preparation is non-empty, so its mean is defined |
| Stv.StvArduiniModSpec | tools/analysingSTV.py:123-134 | at a positive whole frequency with no zero rate the preparation succeeds; a successful run gives one mean-scaled value per 60 s subset; positive rates always succeed, with values that are not negative |
| Stv.StvDaltonSpec | tools/analysingSTV.py:138-143 | one value per prepared subset: half its total variation |
| Stv.StvOrganSpec | tools/analysingSTV.py:147-156 | the subsets are the full chunks of `30 * frequency` raw rates, one mean-scaled value each; positive rates give a successful run of non-negative values |
| Stv.StvZugaivSpec | tools/analysingSTV.py:248-264 | exactly the full chunks of 127 intervals are given to the formula; fewer than 127 trailing intervals are dropped |
| Stv.StvSdSubsetsSpec | tools/analysingSTV.py:267-270 | every chunk of `frequency * 60` rates, the short last one included, is given to the deviation; the chunks concatenate back to the record |
| Stv.Lower | tools/analysingSTV.py:318 | lowering keeps the length and lowers each character |
| Stv.NoAlgorithmIsAll | tools/analysingSTV.py:56-57 | no available algorithm name reads as `all` |
| Stv.DispatchAvailable | tools/analysingSTV.py:321-323 | an available name runs just that algorithm |
| Stv.DispatchSpec | tools/analysingSTV.py:308-344 | the dispatcher succeeds iff the name is `all` in any case or available; `all` runs every available algorithm once in list order, an available name just itself |
| Stv.DispatchUpperAll | tools/analysingSTV.py:318-319 | `ALL` runs every algorithm |
| Stv.DispatchCapitalised | tools/analysingSTV.py:321-344 | `Arduini` is refused with IOError: the membership test does not ignore case |
| Stv.StvHeaderFits | tools/analysingSTV.py:326-330 | a longest row of a name, three statistics and `n` values gets one label per column, `Subset_1 … Subset_n` after the fixed four |
| Builtins.Interval | tools/fetalMaturationAnalysis.py:64-67 | `range(a, b)` has `b - a` values when `a < b`, none otherwise |
| Builtins.IntervalAt | tools/fetalMaturationAnalysis.py:64-67 | the `k`-th value of `range(a, b)` is `a + k` |
| Builtins.IntervalIsRange | tools/fetalMaturationAnalysis.py:64-67 | `range(a, b)` is `range(a, b, 1)` |
| Builtins.Down | tools/fetalMaturationAnalysis.py:91 | a negative-step `range` counts down by the step while above `stop`, and is empty when `start <= stop` |
| Builtins.StepRange | tools/multiscale.py:92 | `range(start, stop, step)` has no value (ValueError) iff the step is zero; a positive step counts up to `stop`, a negative one counts down |
| Builtins.PyInt | tools/separate_blocks.py:111 | `int()` on a string of decimal digits, surrounded by any whitespace, gives the number those digits denote; any successful read had a non-blank string |
| FetalMaturation.PyRange | tools/fetalMaturationAnalysis.py:91-105 | `range` raises ValueError iff the step is zero; a positive step counts up to `stop`, a negative one from `start <= stop` gives nothing |
| FetalMaturation.Blocks | tools/fetalMaturationAnalysis.py:91-106 | one run `range(i, i + width)` per start, in order |
| FetalMaturation.CreateGroups | tools/fetalMaturationAnalysis.py:62-68 | four groups of 5, 4, 4 and 4 weeks that together are the weeks 24 to 40, in order, each once |
| FetalMaturation.WeekGroupsCover | tools/fetalMaturationAnalysis.py:62-68 | the fixed week groups concatenate to the weeks 24 to 40 |
| FetalMaturation.IntervalSplit | tools/fetalMaturationAnalysis.py:64-67 | two abutting ranges make one |
| FetalMaturation.MinOf | tools/fetalMaturationAnalysis.py:80 | `min` of a non-empty list is one of its values and at most every value |
| FetalMaturation.MaxOf | tools/fetalMaturationAnalysis.py:81 | `max` of a non-empty list is one of its values and at least every value |
| FetalMaturation.AppendBlocks | tools/fetalMaturationAnalysis.py:91-106 | the loop appends exactly one run per start, in start order, after the groups already made |
| FetalMaturation.DynamicGroups | tools/fetalMaturationAnalysis.py:71-107 | the method computes exactly `DynamicGroupsAsWritten` |
| FetalMaturation.BuildGroups | tools/fetalMaturationAnalysis.py:82-107 | the body after `min` and `max` computes exactly `GroupsOf` |
| FetalMaturation.DynamicGroupsEven | tools/fetalMaturationAnalysis.py:87-92 | when `n` groups of `k >= 2` fit exactly, the groups are the `n` consecutive runs of `k` values that together are every value from `lo` to `hi`, each once |
| FetalMaturation.EvenRuns | tools/fetalMaturationAnalysis.py:91-92 | `n` starts `k` apart from `lo` give the runs `range(lo + j*k, lo + (j+1)*k)`, together the `n * k` values from `lo` |
| FetalMaturation.DynamicGroupsOneEach | tools/fetalMaturationAnalysis.py:87-92 | as written, one value per group makes only `n - 1` groups and loses the largest value |
| FetalMaturation.DynamicGroupsOneEachExample | tools/fetalMaturationAnalysis.py:79-92 | the weeks 1 to 3 in three groups come out as `[[1], [2]]` |
| FetalMaturation.DynamicGroupsCorrected | tools/fetalMaturationAnalysis.py:79-107 | the corrected grouping fails exactly as the original on an empty column or zero groups |
| FetalMaturation.DynamicGroupsCorrectedEven | tools/fetalMaturationAnalysis.py:87-92 | corrected, every `n >= 1` that divides the number of values gives `n` equal consecutive runs that together are every value from `lo` to `hi`, each once |
| FetalMaturation.DynamicGroupsCorrectedAgrees | tools/fetalMaturationAnalysis.py:87-92 | where the values split evenly into groups of at least two, the correction gives what the original gives |
| FetalMaturation.DynamicGroupsCorrectedBalanced | tools/fetalMaturationAnalysis.py:78-106 | corrected, any `n` from 1 to the number of values gives exactly `n` abutting groups, the first `size % n` of `size / n + 1` values and the rest of `size / n`, that together are every value from `lo` to `hi`, each once |
| FetalMaturation.DynamicGroupsUnevenLosesMax | tools/fetalMaturationAnalysis.py:93-106 | as written, the weeks 1 to 8 in three groups give `1-3`, `4-5`, `6-7`: week 8 is in no group |
| FetalMaturation.DynamicGroupsUnevenTooMany | tools/fetalMaturationAnalysis.py:93-106 | as written, the weeks 1 to 19 in four groups give five groups |
| FetalMaturation.DynamicGroupsCorrectedExample | tools/fetalMaturationAnalysis.py:93-106 | corrected, the weeks 1 to 8 in three groups give `1-3`, `4-6`, `7-8` |
| FetalMaturation.DynamicGroupsUneven | tools/fetalMaturationAnalysis.py:93-106 | an uneven split gives a first group of `floor(k) + 1` values from `lo`, then groups of `floor(k)` each starting right after the one before and below `hi`; together they run from `lo` without a gap past every value below `hi` |
| FetalMaturation.UnevenRuns | tools/fetalMaturationAnalysis.py:99-106 | every group after the first has `floor(k)` values and starts below `hi` |
| FetalMaturation.UnevenAbutting | tools/fetalMaturationAnalysis.py:96-106 | each group starts right after the last value of the one before |
| FetalMaturation.UnevenCover | tools/fetalMaturationAnalysis.py:96-106 | together the groups are the values from `lo` to the end of the last run, which reaches `hi` |
| FetalMaturation.RangeBlocksCover | tools/fetalMaturationAnalysis.py:91-106 | runs of `k` values at the starts `range(lo, stop, k)` concatenate to one run from `lo` |
| FetalMaturation.RangeReach | tools/fetalMaturationAnalysis.py:105-106 | the run after the last start of `range(start, stop, step)` ends at or past `stop` |
| FetalMaturation.DynamicGroupsTooMany | tools/fetalMaturationAnalysis.py:99-105 | more groups than values make the later step zero, and `range` raises ValueError |
| FetalMaturation.DynamicGroupsErrors | tools/fetalMaturationAnalysis.py:79-82 | an empty column raises ValueError, zero groups ZeroDivisionError; otherwise the groups depend only on the column's smallest and largest value |
| FetalMaturation.CreateGroupsIsDynamic | tools/fetalMaturationAnalysis.py:62-107 | the fixed groups are what dynamic_groups makes of four groups over the weeks 24 to 40 |
| FetalMaturation.IntToString | tools/fetalMaturationAnalysis.py:132 | `"%d" % n` is non-empty and made of digits and a minus sign |
| FetalMaturation.ParseIntRoundTrip | tools/fetalMaturationAnalysis.py:132 | reading back a number written by `%d` gives the number |
| FetalMaturation.GroupName | tools/fetalMaturationAnalysis.py:124-133 | a label exists iff the index selects a group (Python indexing) and that group is non-empty; otherwise IndexError |
| FetalMaturation.GroupNameReadBack | tools/fetalMaturationAnalysis.py:124-133 | a label splits at its colon into `Group_` with the group's first value and the group's last value, both readable back |
| FetalMaturation.WeekGroupNames | tools/fetalMaturationAnalysis.py:124-133 | the four fixed groups are labelled `Group_24:28`, `Group_29:32`, `Group_33:36`, `Group_37:40`; a fifth id raises IndexError |
| FetalMaturation.WeekGroupLabelled | tools/fetalMaturationAnalysis.py:124-133 | a non-negative group id has a label iff it is one of the four fixed groups |
| FetalMaturation.GroupNameOfInterval | tools/fetalMaturationAnalysis.py:124-133 | the label of a group `range(a, b)` names `a` and `b - 1` |
| FetalMaturation.ProcessDataFramesList | tools/fetalMaturationAnalysis.py:215-231 | succeeds iff there are one to four frames; frame `i` becomes one row labelled with week group `i`, in order; no frames raise ValueError, a fifth IndexError |
| FetalMaturation.LabelFrames | tools/fetalMaturationAnalysis.py:222-229 | over any non-empty groups, succeeds iff there are frames and no more than groups; row `i` is frame `i`'s metrics under group `i`'s label |

## Left out

- Floating point: values are `real`. Rounding and truncation are written out, but the `%.3f` and `%d` formatting of result files is modelled as the numbers written, not as byte strings. Division is plain Python float division: `Stv.Interbeat` raises ZeroDivisionError on a zero rate, where a numpy `float64` column would give `inf` instead.
- The entropy estimators (`sampen` and `apen` from pyeeg, and the logarithm-and-mean phase of `apenv2`) and the numpy `std`, `mean` and `median` calls are left out. The tools only call them, so they are function parameters (`estimator`, `std`, `formula`).
- The compressor backends (zlib, bz2, lzma, paq8l, ppmd) are left out, because they are external libraries or programs. They are one function parameter, `backend`.
- File-system I/O is left out: reading is a function parameter, listings are sequences, and written files are returned as values or a map. Directory creation is a set of directories. Logging and console output are left out, because they change nothing the tools compute.
- The command-line drivers (`TSAnalyseDirect.py`, `TSAnalyseFileBlocks.py`, `TSAnalyseMultiScale.py`, `TSFilter.py`) are left out. Their argument conventions enter the model as parameters: the last scale is included, and a gap of 0 means one section.
- Exceptions: a Python exception the tools do not catch becomes an `Err` value. The `ValueError` that `float()` raises on a malformed line is a precondition instead (`Partition.TimeReadable`, `Partition.AllTwoColumn`).
- Partition.TimeBlocks: a time tiling whose window stops moving never terminates in the source. The model returns `Err(Diverges)` instead.
- Partition.PartitionByTime: `util.is_empty_file` and `util.remove_project_path_from_file` (tools/partition.py:209-211) are not defined in tools/utilityFunctions.py, so the call raises AttributeError as written. The model reads `is_empty_file` as "no non-blank lines": such a file gives no blocks, where a test on the byte size would pass a file of blank lines on to the sniffer with an empty sample. The path helper only feeds a log message.
- Partition.LineBlocks: the full-file line tiling requires a gap of at least one line. With a smaller gap the window stays still or moves backwards, so the loop need not terminate.
- Removing blank lines from a record happens when the file is read, which is not modelled. Records are their non-blank lines.
- Builtins.ParseReal: reads an optional sign, digits and an optional fraction. Exponents, `inf` and `nan` are not accepted.
- UtilityFunctions.Last: only the list branch is modelled. For a value that is not a list, `last` returns it unchanged (tools/utilityFunctions.py:114-116); Dafny's static types have no such value, and every caller passes a list.
- UtilityFunctions.RemoveSlash: requires a path that is not all slashes. On such a path the source strips to the empty string and then indexes it, which raises an error.
- SeparateBlocks.Outliers: requires at least two sizes. With one size the source's `p75` index is out of range; `SeparateBlocks.MetricLimits` returns `Err(IndexError)` for that case.
- Stv: the `sonicaid`, `yeh` and van Geijn variants are left out. So are `stv_sd`, `compute_stv_metric_of_file` and the pandas and CSV output, because they sit on numpy and pandas.
- Stv: `util.is_nan_list` and `util.my_round` (tools/stv_analysis.py:121, 127 and 313-316) are not defined in tools/utilityFunctions.py, and `STV_ANALYSIS_STORAGE_PATH` (line 330) is defined only in tools/constants.py:45. They are left out with the NaN-aware statistics, the rounding and the output they serve.
- Stv.Dispatch: gives the algorithms that run, in order, and follows tools/stv_analysis.py:300. In tools/analysingSTV.py `stv_sd` (line 273) takes one argument but line 296 passes two, so `sd` raises TypeError and `all` raises when it reaches `sd`, the eighth algorithm, before `sd_subsets` runs.
- Stv.MeanScaled: a zero mean over a non-empty sum is `Err(NotFinite)`, where numpy would give `inf` or `nan`. The NaN-aware mean and deviation of `tools/stv_analysis.py` are not told apart from the plain ones, because a list of `real` holds no NaN.
- FetalMaturation: pandas data frames are left out; the `conf_interval` metrics are the `metrics` parameter. `group_data_frame_by`, `select_columns_to_evaluate`, `fetal_maturation_analysis` and `set_debug_and_encoding` are left out, because they are pandas queries, plotting and process setup.
- FetalMaturation.DynamicGroups: modelled as written, including its non-integral step branch. The tool's entry point never calls it. The corrected grouping keeps the original's failures when there are more groups than values or a negative group count.
- Multiscale.CreateScale: requires a scale of at least one, and `Multiscale.CreateScales` requires `Multiscale.ScalesPositive` of its range. At scale 0 the loop at tools/multiscale.py:264-271 never advances: it writes the mean of an empty window (`nan`) forever, or raises at once when rounding to integers. At a negative scale it never ends either.
- Partition.ModalStamp: returns a most frequent stamp, not a particular one. The source counts stamps in a Python 2 dict, whose iteration order decides ties and is not specified.
- `clampStateAnalysis` and the tools under `backup_TSAnalyse` are not part of this model.

## Findings

| source | as written | input that shows it | evidently intended | confidence | as-written member | corrected member |
|---|---|---|---|---|---|---|
| tools/utilityFunctions.py:74-84 | `tail(v, n)` slices from `len(v) - n`. When `n > len(v)` that index is negative, so it counts from the end. | `tail([1, 2, 3], 5)` gives `[2, 3]` | the whole list when more elements are asked for than exist | not executed | UtilityFunctions.TailOverlongExample | UtilityFunctions.TailClamped |
| tools/multiscale.py:145-156 | `multiscale_compression` on one file looks up `compression_results[filename]`. `compress` keys that table by the file's full path. | any single file with at least one scale, e.g. `a.txt` compressed at scale 1 | the lookup under the key `compress` itself used | not executed | Multiscale.CompressionAsWrittenFails | Multiscale.CompressionCorrected |
| tools/multiscale.py:209-215 | the directory branch of `multiscale_entropy` looks up `entropy_results[file_in_scale]`, a joined path. `entropy` keys its table by base name. | a directory holding one file `a.txt`, with one scale | the lookup under the base name | not executed | Multiscale.EntropyAsWrittenFails | Multiscale.EntropyCorrected |
| tools/fetalMaturationAnalysis.py:87-92 | `range(l_min, l_max, k)` excludes `l_max`. With a step of 1 the last group, which holds the maximum, is never produced. | the column `[1, 2, 3]` cut into 3 groups gives `[[1], [2]]` | one group per requested interval, the last including the maximum | not executed | FetalMaturation.DynamicGroupsOneEachExample | FetalMaturation.DynamicGroupsCorrectedEven |
| tools/fetalMaturationAnalysis.py:93-106 | when the values do not split evenly, the first group takes `ceil(k)` values and the rest start every `floor(k)` values below `l_max`. The number of groups is not `n`, and the last value can fall out. | the weeks 1 to 8 in three groups give `1-3`, `4-5`, `6-7`, losing week 8; the weeks 1 to 19 in four groups give five groups | `n` groups that together hold every value once, their sizes differing by at most one | not executed | FetalMaturation.DynamicGroupsUnevenLosesMax | FetalMaturation.DynamicGroupsCorrectedBalanced |
