# Time-series aggregation of evolutionary-run data, in Dafny

`scripts/aggregate.py` gathers the output of many runs of an evolutionary-computation
experiment into one time-series table. It reads each run's configuration
(`run_config.csv`) and three per-generation data files (`data.csv`, `phylodiversity.csv`
and `phenotype_systematics.csv`). It renames and prefixes their column headers and merges
their rows into one row per generation. It then adds derived columns (evaluations, selection
scheme name, test sample proportion, run directory) and keeps only the generations at the
requested resolution. Every run must produce the same header, and the script reports the
runs that did not reach their last generation.

The model follows the script's structure:

| file | models |
|---|---|
| `common.dfy` | error kinds, `Option`, `Result`, and `MapResult`, a list comprehension whose element function may raise |
| `sorting.dfy` | Python's stable `list.sort(key=...)`: `SortBy`, an insertion sort proved ordered, a permutation and stable; `SortInPlace` on an array |
| `strings.dfy` | Python's string order, `in` on strings, `split`, `join`, `strip`, `os.path.join` |
| `numbers.dfy` | `int(text)`, `float(text)`, `str(n)`, and `int(x)` for a float `x` |
| `header.dfy` | `read_csv`: header renaming and prefixing, in place on an array, and one row mapping per record |
| `merge.dfy` | `merge_data`: the sort on the `gen` string, the grouping, and the left-to-right `\|=` fold |
| `settings.dfy` | `extract_settings`: the header lookup and the parameter-to-value map |
| `aggregate.dfy` | the per-run steps of `main`: derived settings, the unfinished check, line enrichment, the resolution filter, the header fields and the output rows |
| `pipeline.dfy` | `main`: the directory checks, run discovery, ordering by seed, the per-run loop and the header check |

A file's contents are given as its first line and its records, already split into fields
(`CsvFile`). The file system is a value: each directory's listing plus each file's contents.
A failure that makes the script stop (`exit(-1)` or an uncaught exception) is an `Err` result
naming its kind. The order in which the script meets failures is kept throughout.

The header's data fields are the keys of the last merged line of a run, because `line_keys`
is reassigned on every pass (scripts/aggregate.py:224).

## Model

| member | source | states |
|---|---|---|
| `Common.MapResultSpec` | scripts/aggregate.py:212-224 | a per-element step over a list succeeds exactly when every element's step succeeds, and then holds each element's result at its position |
| `Common.MapResultFirstFailure` | scripts/aggregate.py:137 | a failing per-element step reports the failure of the first element that fails |
| `Sorting.SortByFacts` | scripts/aggregate.py:77 | the stable sort by key yields a sequence ordered by the key, with the same multiset of elements |
| `Sorting.SortByStable` | scripts/aggregate.py:77 | for every key, the elements with that key keep their original relative order |
| `Sorting.SortedUnique` | scripts/aggregate.py:232-233 | two sorted sequences with the same multiset are equal, so the sorted field list is determined by its fields |
| `Sorting.SortInPlace` | scripts/aggregate.py:77 | sorting a list in place leaves exactly the stable sort of its old contents |
| `Strings.StrLtIsStrictTotalOrder` | scripts/aggregate.py:77 | Python's string comparison is irreflexive, transitive and total on distinct strings |
| `Strings.ContainsIffOccurs` | scripts/aggregate.py:59-64 | `pat in s` holds exactly when `pat` occurs at some position of `s` |
| `Strings.SplitJoin` | scripts/aggregate.py:53 | joining the pieces of `split(c)` with `c` gives back the string, and no piece contains `c` |
| `Strings.JoinSplit` | scripts/aggregate.py:234 | splitting a `c`-join of pieces free of `c` gives back the pieces |
| `Strings.JoinInjective` | scripts/aggregate.py:234-238 | two field lists free of the separator join to the same header only when they are equal |
| `Strings.StripSpec` | scripts/aggregate.py:98 | `strip` removes exactly the leading and trailing white space, leaving an inner slice that neither starts nor ends with white space |
| `Numbers.ParseIntToString` | scripts/aggregate.py:189 | `int` reads back every integer `str` writes |
| `Numbers.ParseFloatOfInt` | scripts/aggregate.py:192 | `float` reads back every integer numeral with its integer value |
| `Numbers.Trunc` | scripts/aggregate.py:228 | `int(x)` of a float rounds toward zero: it lies within 1 of `x`, on the side of zero |
| `Header.FirstIndex` | scripts/aggregate.py:55 | `list.index` returns a position holding the name, with no earlier position holding it |
| `Header.RenamedSpec` | scripts/aggregate.py:54-57 | the first `update` is renamed `gen`; with no `update`, the first `generation` is; otherwise the header is unchanged, and its length is kept |
| `Header.NormalizedHeaderSpec` | scripts/aggregate.py:53-67 | after renaming, every name but `gen` is prefixed `gen_` when the path contains `genotype` and `phen_` when it contains `phenotype`; a name is `gen` afterwards exactly when it was `gen` after renaming |
| `Header.NormalizedHeader` | scripts/aggregate.py:53-67 | normalisation keeps the header's length |
| `Header.IndexOf` | scripts/aggregate.py:55-57 | the loop finds the first position holding the name |
| `Header.PrefixInPlace` | scripts/aggregate.py:59-67 | the in-place loop prefixes every name other than `gen` and leaves `gen` as it is |
| `Header.NormalizeHeader` | scripts/aggregate.py:53-67 | the in-place rewrite of the header list leaves exactly the normalised header |
| `Header.ZipSpec` | scripts/aggregate.py:71 | a row maps exactly the header's names, each to the field at that name's last position |
| `Header.RowsOfSpec` | scripts/aggregate.py:71 | reading succeeds exactly when no record is shorter than the header, and then gives one row per record, in order |
| `Header.ReadCsv` | scripts/aggregate.py:49-72 | `read_csv` normalises the header in place and then builds the rows the pure model gives |
| `Header.CsvRowsHaveGen` | scripts/aggregate.py:53-71 | every row read has a `gen` field exactly when the normalised header has one |
| `Header.PhenotypeHeaderExample` | scripts/aggregate.py:56-62 | a phenotype file's `generation,richness` header becomes `gen,phen_richness` |
| `Merge.RunLen` | scripts/aggregate.py:79 | a group of `groupby` is the longest run of rows with the first row's `gen` |
| `Merge.FoldUnionKeys` | scripts/aggregate.py:80-82 | folding with `\|=` gives a line whose keys are exactly the keys of the rows folded |
| `Merge.FoldUnionValues` | scripts/aggregate.py:80-82 | each key of the folded line holds the value of the last row folded that has the key |
| `Merge.MergeRunsSpec` | scripts/aggregate.py:79-84 | grouping a sorted list yields lines in strictly ascending `gen` order, one per `gen`, each the fold of all rows with its `gen` |
| `Merge.MergedSpec` | scripts/aggregate.py:75-86 | `merge_data` gives one line per distinct `gen` string, in ascending string order, each with a `gen` field and equal to the fold of every input row with that `gen`, in input order |
| `Merge.MergedRowContents` | scripts/aggregate.py:77-82 | a merged line's keys are the union of the keys of the rows with its `gen`, and each value comes from the last such row in input order that has the key |
| `Merge.FoldRun` | scripts/aggregate.py:80-82 | the inner loop folds exactly one group with `\|=` and returns the position after it |
| `Merge.GroupRuns` | scripts/aggregate.py:78-84 | the grouping loop builds exactly the merged lines of the sorted list |
| `Merge.MergeData` | scripts/aggregate.py:75-86 | `merge_data` sorts its list in place by `gen` and returns the merged lines; a row without `gen` raises KeyError and leaves the list unchanged |
| `Settings.HeaderLookupKeys` | scripts/aggregate.py:98 | a name is found in the header lookup exactly when some column has that name once stripped |
| `Settings.HeaderLookupIndex` | scripts/aggregate.py:98 | a name found in the header lookup maps to the last column with that name |
| `Settings.SettingsOfOk` | scripts/aggregate.py:100-101 | settings are extracted exactly when there are no records, or both named columns exist and every record reaches them |
| `Settings.SettingsOfNoParameter` | scripts/aggregate.py:101 | with records but no `parameter` column, extraction raises KeyError for `parameter` |
| `Settings.SettingsOfKeys` | scripts/aggregate.py:101 | the settings' names are exactly the values in the `parameter` column |
| `Settings.SettingsOfValue` | scripts/aggregate.py:101 | a name given more than once takes the `value` of the last record naming it |
| `Settings.ExtractSettingsSpec` | scripts/aggregate.py:93-101 | `extract_settings` finds the columns by stripped name, maps every parameter to the value of its last record, and fails with KeyError when there are records but no `parameter` column |
| `Aggregate.SetupSpec` | scripts/aggregate.py:187-194 | the setup is read exactly when the `SELECTION` code is present and known, `MAX_GENS` parses as an integer, and the lexicase proportion the scheme needs parses; the selection name is the scheme of the `SELECTION` code, and an unknown or missing code fails; `MAX_GENS` is read as an integer; the test sample proportion is `DSLEX_PROP` or `COH_LEX_PROP` for the two lexicase schemes and 1.0 otherwise |
| `Aggregate.GenValuesOk` | scripts/aggregate.py:208 | the set of generations is computed exactly when every merged line has a `gen` that reads as an integer |
| `Aggregate.GenValuesMembers` | scripts/aggregate.py:208 | the set holds exactly the integer `gen` values of the lines |
| `Aggregate.UnfinishedSpec` | scripts/aggregate.py:207-210 | a run is unfinished exactly when no line's `gen` equals `MAX_GENS` |
| `Aggregate.EnrichLineSpec` | scripts/aggregate.py:214-223 | enriching a line succeeds exactly when its `gen`, `POP_SIZE` and `OBJECTIVE_CNT` read as integers; it keeps every original field, adds the four derived fields, and sets evaluations to generations times population times tests times sample proportion |
| `Aggregate.EnrichedSpec` | scripts/aggregate.py:212-224 | enriching all lines succeeds exactly when every line does, and then gives one point per line, in order |
| `Aggregate.EnrichAll` | scripts/aggregate.py:212-224 | the enrichment loop computes every line's point, and `line_keys` ends as the keys of the last line |
| `Aggregate.FilterPointsMembers` | scripts/aggregate.py:226-228 | a line is kept exactly when its measure (generation, or truncated evaluations) is a multiple of the resolution or equals `MAX_GENS` |
| `Aggregate.FilterPointsConcat` | scripts/aggregate.py:228 | the filter distributes over concatenation, so it keeps lines in their order |
| `Aggregate.FilterPointsIdempotent` | scripts/aggregate.py:226-228 | filtering twice keeps the same lines as filtering once |
| `Aggregate.FilterPointsAll` | scripts/aggregate.py:227-228 | at resolution 1 every line is kept |
| `Aggregate.FilterPointsKeepsMax` | scripts/aggregate.py:227-228 | a line whose measure equals `MAX_GENS` is always kept, in evaluations mode too |
| `Aggregate.SortedFieldsSpec` | scripts/aggregate.py:230-233 | the header fields are ordered by string order and are exactly the data fields plus the configuration fields, with a name in both listed twice; no other list is |
| `Aggregate.BuildFields` | scripts/aggregate.py:230-234 | building the field lists and sorting them in place gives exactly that sorted field list |
| `Aggregate.RowShape` | scripts/aggregate.py:242-252 | an output row has one cell per header field, in header order: the run's setting for a configuration field, the line's value for a data field it has, and `""` for one it lacks |
| `Pipeline.DiscoverMembers` | scripts/aggregate.py:134 | discovery succeeds exactly when every data directory is a directory, and then finds exactly the accepted entries of their listings, joined to their directory |
| `Pipeline.DiscoverRunsSpec` | scripts/aggregate.py:134 | the corrected discovery finds exactly the paths `d/e` where `e` is listed in data directory `d`, contains `RUN_`, and `d/e` is a directory |
| `Pipeline.DiscoveryAsWrittenMissesRun` | scripts/aggregate.py:134 | the test as written misses a run directory `d/e` when no `e` exists in the working directory, where the corrected test finds it |
| `Pipeline.OrderedRunsSpec` | scripts/aggregate.py:137 | ordering fails on the first run whose text after the last `_` is not an integer; otherwise it permutes the runs into ascending seed order, keeping runs with equal seeds in discovery order |
| `Pipeline.OrderRuns` | scripts/aggregate.py:137 | the in-place sort of the run list gives that ordering |
| `Pipeline.ReadRunRows` | scripts/aggregate.py:197-205 | the three data files are read in order and merged, the first failure ending the run |
| `Pipeline.EmitRows` | scripts/aggregate.py:242-252 | the row loop appends one output row per kept line, in order |
| `Pipeline.ReportRun` | scripts/aggregate.py:207-252 | from the merged lines, the steps give the run's unfinished flag, header and output rows as specified |
| `Pipeline.ProcessRun` | scripts/aggregate.py:152-252 | one pass of the per-run loop: the four existence checks in order (the genotype file is not checked), the settings, the merged data and the output, with the script's failures in its order |
| `Pipeline.CollectRunsHeaders` | scripts/aggregate.py:236-240 | if the loop completes, every run produced the one header in the set, so all runs agree on it, and the set is empty only when there were no runs |
| `Pipeline.CollectRunsUnfinished` | scripts/aggregate.py:207-210 | if the loop completes, the reported unfinished runs are exactly the runs that lack their last generation |
| `Pipeline.AddRun` | scripts/aggregate.py:236-252 | the end of one pass adds the run's header to the set and stops on a second distinct header; otherwise it appends the run's rows, and the run itself when it is unfinished |
| `Pipeline.CollectAll` | scripts/aggregate.py:150-253 | the per-run loop over the ordered runs yields the collected header set, rows and unfinished runs, or the first failure |
| `Pipeline.CollectReordered` | scripts/aggregate.py:137-253 | over any ordering of the runs found, a completed loop has one header shared by every run, and reports exactly the unfinished runs found |
| `Pipeline.AggregateOutcomeExits` | scripts/aggregate.py:122-129 | a missing data directory exits first, then a resolution below 1; with no runs found, taking the header from the empty set raises IndexError; this holds for any run-directory test |
| `Pipeline.MainAsWrittenFindsNoRun` | scripts/aggregate.py:134 | with the script's own directory test, a data directory `d` listing only `e` where `d/e` is a directory and the working directory has no `e` makes `main` fail with IndexError, while the intended test finds `d/e` |
| `Pipeline.AggregateOneHeader` | scripts/aggregate.py:134-264 | for any run-directory test, the script's own among them: on success exactly one header is written, every run found produced it, and the runs reported unfinished are exactly the unfinished runs found |
| `Pipeline.AggregateRuns` | scripts/aggregate.py:122-264 | `main`, with the run-directory test as a parameter, yields the single header, the rows in run order and the unfinished runs, or the failure the script stops with; given `RunDirTestAsWritten` it is the script as written, given `RunDirTest` the corrected script |

## Left out

- Reading the files: `open`, `read().strip().split("\n")`, and the quoted-field parsing of `csv.reader`. A file's header line and its records, already split into fields, are inputs.
- Command-line parsing with `argparse`. The data directories, `by_evals` and `resolution` are inputs. `--by_evals` is declared `type=bool`, so any non-empty value means true; this is not modelled.
- `mkdir_p`, the output file, and `print`. The model returns what would be written (the header, the rows as cell values, the unfinished runs). The final `str()` of each cell, the comma-join of each row and the newline-join of the rows are not modelled.
- Floating-point arithmetic. Evaluations and sample proportions are exact reals, so `gen_to_eval` does no rounding. `float()` accepts only plain decimal numerals (no exponents, `inf` or `nan`), and `int()` accepts only ASCII digits with an optional sign (no underscores, no other Unicode digits).
- The genotype systematics file. The script leaves it out itself: its existence check and its reading are commented out.
- Insertion order of dictionary keys. Lines and settings are maps. The output order comes only from the sorted field list, so it does not depend on this.
- State after a failure. The script exits, so nothing is said about the lists it was building.
- `source/native/dia_world.cc` is not part of this model: it starts a simulation whose code is not available.

## Findings

| source | as written | input that shows it | evidently intended | confidence | as-written member | corrected member |
|---|---|---|---|---|---|---|
| scripts/aggregate.py:134 | `os.path.isdir(run_dir)` tests the bare entry name, resolved against the working directory | data directory `data` that lists `RUN_1`, where `data/RUN_1` is a directory and the working directory has no `RUN_1`: no run is found | `os.path.isdir(os.path.join(data_dir, run_dir))`, which finds `data/RUN_1` | high; not executed | `Pipeline.DiscoverRunsAsWritten` (shown by `Pipeline.DiscoveryAsWrittenMissesRun` and, for `main`, `Pipeline.MainAsWrittenFindsNoRun`) | `Pipeline.DiscoverRuns` (proved by `Pipeline.DiscoverRunsSpec`) |
