/** `main` (scripts/aggregate.py:106-268): checks the data directories and the resolution,
    finds the run directories, orders them by seed, takes every run through the per-run
    steps, insists that all runs share one header, and collects the output rows and the
    unfinished runs. The file system is a value the model reads; messages, the output file
    and the exit status are not modelled (an error result stands for `exit(-1)` or an
    uncaught exception). */
module Pipeline {
  import opened Common
  import opened Sorting
  import opened Strings
  import opened Header
  import opened Merge
  import opened Settings
  import opened Aggregate

  const RUN_DIR_IDENTIFIER: string := "RUN_"

  /** What the script can see of the file system: the entries of each directory, in the
      order `os.listdir` lists them, and the contents of each file, both by path. */
  datatype FileSystem = FileSystem(dirs: map<string, seq<string>>, files: map<string, CsvFile>)

  /** `os.path.exists`. */
  predicate Exists(fs: FileSystem, path: string) {
    path in fs.dirs || path in fs.files
  }

  /** `os.path.isdir`. */
  predicate IsDir(fs: FileSystem, path: string) {
    path in fs.dirs
  }

  // ---------------------------------------------------------------------------------------
  // Run discovery (scripts/aggregate.py:134)

  /** The entries of directory `d` that `keep` accepts, in listing order, joined to `d`. */
  function RunEntries(d: string, entries: seq<string>, keep: (string, string) -> bool): seq<string> {
    if entries == [] then []
    else
      (if keep(d, entries[0]) then [JoinPath(d, entries[0])] else [])
      + RunEntries(d, entries[1..], keep)
  }

  /** The nested comprehension over the data directories and their listings; `os.listdir`
      fails on a path that is not a directory, the first such data directory first. */
  function Discover(fs: FileSystem, dataDirs: seq<string>, keep: (string, string) -> bool): Result<seq<string>> {
    if dataDirs == [] then Ok([])
    else if !IsDir(fs, dataDirs[0]) then Err(NotADirectory(dataDirs[0]))
    else
      var rest :- Discover(fs, dataDirs[1..], keep);
      Ok(RunEntries(dataDirs[0], fs.dirs[dataDirs[0]], keep) + rest)
  }

  /** The test the script applies to entry `e` of data directory `d`: the name contains
      `RUN_`, and `os.path.isdir` holds for the bare entry name, which is resolved against
      the working directory rather than against `d`. */
  predicate IsRunDirAsWritten(fs: FileSystem, d: string, e: string) {
    Contains(e, RUN_DIR_IDENTIFIER) && IsDir(fs, e)
  }

  /** The evidently intended test: the name contains `RUN_` and `d/e` is a directory. */
  predicate IsRunDir(fs: FileSystem, d: string, e: string) {
    Contains(e, RUN_DIR_IDENTIFIER) && IsDir(fs, JoinPath(d, e))
  }

  function RunDirTestAsWritten(fs: FileSystem): (string, string) -> bool {
    (d, e) => IsRunDirAsWritten(fs, d, e)
  }

  function RunDirTest(fs: FileSystem): (string, string) -> bool {
    (d, e) => IsRunDir(fs, d, e)
  }

  function DiscoverRunsAsWritten(fs: FileSystem, dataDirs: seq<string>): Result<seq<string>> {
    Discover(fs, dataDirs, RunDirTestAsWritten(fs))
  }

  function DiscoverRuns(fs: FileSystem, dataDirs: seq<string>): Result<seq<string>> {
    Discover(fs, dataDirs, RunDirTest(fs))
  }

  /** Entry `j` of `entries` is accepted and `r` is its path. */
  predicate EntryFound(d: string, entries: seq<string>, keep: (string, string) -> bool, r: string, j: int) {
    0 <= j < |entries| && keep(d, entries[j]) && r == JoinPath(d, entries[j])
  }

  /** Entry `j` of data directory `i` is accepted and `r` is its path. */
  predicate FoundIn(fs: FileSystem, dataDirs: seq<string>, keep: (string, string) -> bool, r: string, i: int, j: int) {
    0 <= i < |dataDirs| && IsDir(fs, dataDirs[i]) && EntryFound(dataDirs[i], fs.dirs[dataDirs[i]], keep, r, j)
  }

  lemma {:induction false} RunEntriesMembers(d: string, entries: seq<string>, keep: (string, string) -> bool, r: string)
    ensures r in RunEntries(d, entries, keep) <==> exists j :: EntryFound(d, entries, keep, r, j)
  {
    if entries != [] {
      RunEntriesMembers(d, entries[1..], keep, r);
      if keep(d, entries[0]) && r == JoinPath(d, entries[0]) {
        assert EntryFound(d, entries, keep, r, 0);
      }
      if j :| EntryFound(d, entries[1..], keep, r, j) {
        assert EntryFound(d, entries, keep, r, j + 1);
      }
      if j :| EntryFound(d, entries, keep, r, j) && j > 0 {
        assert EntryFound(d, entries[1..], keep, r, j - 1);
      }
    }
  }

  /** Discovery succeeds exactly when every data directory is a directory, and then finds
      exactly the accepted entries of their listings, joined to their directory. */
  lemma {:induction false} DiscoverMembers(fs: FileSystem, dataDirs: seq<string>, keep: (string, string) -> bool, r: string)
    ensures Discover(fs, dataDirs, keep).Ok? <==> forall i :: 0 <= i < |dataDirs| ==> IsDir(fs, dataDirs[i])
    ensures Discover(fs, dataDirs, keep).Ok? ==>
      (r in Discover(fs, dataDirs, keep).value <==> exists i, j :: FoundIn(fs, dataDirs, keep, r, i, j))
  {
    if dataDirs != [] {
      var d := dataDirs[0];
      var rest := dataDirs[1..];
      DiscoverMembers(fs, rest, keep, r);
      if !IsDir(fs, d) {
        assert !IsDir(fs, dataDirs[0]);
      } else {
        if forall i :: 0 <= i < |dataDirs| ==> IsDir(fs, dataDirs[i]) {
          forall i | 0 <= i < |rest| ensures IsDir(fs, rest[i]) {
            assert rest[i] == dataDirs[i + 1];
          }
        }
        if Discover(fs, dataDirs, keep).Ok? {
          forall i | 0 <= i < |dataDirs| ensures IsDir(fs, dataDirs[i]) {
            if i > 0 {
              assert dataDirs[i] == rest[i - 1];
            }
          }
          RunEntriesMembers(d, fs.dirs[d], keep, r);
          if j :| EntryFound(d, fs.dirs[d], keep, r, j) {
            assert FoundIn(fs, dataDirs, keep, r, 0, j);
          }
          if i, j :| FoundIn(fs, rest, keep, r, i, j) {
            assert FoundIn(fs, dataDirs, keep, r, i + 1, j);
          }
          if i, j :| FoundIn(fs, dataDirs, keep, r, i, j) {
            if i == 0 {
              assert EntryFound(d, fs.dirs[d], keep, r, j);
            } else {
              assert FoundIn(fs, rest, keep, r, i - 1, j);
            }
          }
        }
      }
    }
  }

  /** The corrected discovery finds exactly the directories `d/e` for data directory `d`
      and entry `e` of its listing whose name contains `RUN_`; every run it finds is a
      directory. */
  lemma DiscoverRunsSpec(fs: FileSystem, dataDirs: seq<string>, r: string)
    ensures DiscoverRuns(fs, dataDirs).Ok? <==> forall i :: 0 <= i < |dataDirs| ==> IsDir(fs, dataDirs[i])
    ensures DiscoverRuns(fs, dataDirs).Ok? ==>
      (r in DiscoverRuns(fs, dataDirs).value <==>
        exists i, j :: FoundIn(fs, dataDirs, RunDirTest(fs), r, i, j))
    ensures DiscoverRuns(fs, dataDirs).Ok? && r in DiscoverRuns(fs, dataDirs).value ==> IsDir(fs, r)
  {
    var keep := RunDirTest(fs);
    DiscoverMembers(fs, dataDirs, keep, r);
    if DiscoverRuns(fs, dataDirs).Ok? && r in DiscoverRuns(fs, dataDirs).value {
      var i, j :| FoundIn(fs, dataDirs, keep, r, i, j);
      assert IsRunDir(fs, dataDirs[i], fs.dirs[dataDirs[i]][j]);
    }
  }

  /** The discovery as written misses a run directory `d/e` whenever no directory of the
      bare name `e` exists in the working directory: with data directory `d` listing only
      `e`, and `d/e` a directory, the script finds no run where the intended test finds
      `d/e`. */
  lemma DiscoveryAsWrittenMissesRun(d: string, e: string)
    requires d != [] && e != d && Contains(e, RUN_DIR_IDENTIFIER)
    ensures var fs := FileSystem(map[d := [e], JoinPath(d, e) := []], map[]);
      DiscoverRunsAsWritten(fs, [d]) == Ok([]) && DiscoverRuns(fs, [d]) == Ok([JoinPath(d, e)])
  {
    var fs := FileSystem(map[d := [e], JoinPath(d, e) := []], map[]);
    assert |JoinPath(d, e)| > |e|;
    assert !IsDir(fs, e) && IsDir(fs, JoinPath(d, e));
    assert [d][1..] == [] && [e][1..] == [];
    assert fs.dirs[d] == [e];
    assert !RunDirTestAsWritten(fs)(d, e) && RunDirTest(fs)(d, e);
    assert RunEntries(d, [], RunDirTestAsWritten(fs)) == [] && RunEntries(d, [], RunDirTest(fs)) == [];
    assert RunEntries(d, [e], RunDirTestAsWritten(fs)) == [];
    assert RunEntries(d, [e], RunDirTest(fs)) == [JoinPath(d, e)];
    assert Discover(fs, [], RunDirTestAsWritten(fs)) == Ok([]) && Discover(fs, [], RunDirTest(fs)) == Ok([]);
  }

  // ---------------------------------------------------------------------------------------
  // Ordering by seed (scripts/aggregate.py:137)

  /** The text after the last `_` of a run directory's path. */
  function SeedText(run: string): string {
    var pieces := Split(run, '_');
    pieces[|pieces| - 1]
  }

  /** `int(x.split("_")[-1])`. */
  function SeedOf(run: string): Result<int> {
    IntOf(SeedText(run))
  }

  /** The sort key, once every seed is known to parse. */
  function SeedKey(run: string): int {
    if SeedOf(run).Ok? then SeedOf(run).value else 0
  }

  /** `run_dirs.sort(key=...)`: every key is computed first, so the first run whose seed does
      not parse fails the sort; otherwise a stable sort by seed. */
  function OrderedRuns(runs: seq<string>): Result<seq<string>> {
    var seeds :- MapResult(runs, SeedOf);
    Ok(SortBy(runs, SeedKey, IntLt))
  }

  /** Ordering fails exactly when some seed does not parse, with the failure of the first
      such run; otherwise it permutes the runs into ascending order of their seeds and keeps
      runs with equal seeds in discovery order. */
  lemma OrderedRunsSpec(runs: seq<string>, k: int)
    ensures OrderedRuns(runs).Ok? <==> forall i :: 0 <= i < |runs| ==> SeedOf(runs[i]).Ok?
    ensures OrderedRuns(runs).Err? ==>
      exists i :: FirstFailureAt(runs, SeedOf, i) && OrderedRuns(runs).error == SeedOf(runs[i]).error
    ensures OrderedRuns(runs).Ok? ==>
      var s := OrderedRuns(runs).value;
      && multiset(s) == multiset(runs)
      && (forall i :: 0 <= i < |s| ==> SeedOf(s[i]) == Ok(SeedKey(s[i])))
      && (forall i, j :: 0 <= i < j < |s| ==> SeedKey(s[i]) <= SeedKey(s[j]))
      && FilterKey(s, SeedKey, k) == FilterKey(runs, SeedKey, k)
  {
    MapResultSpec(runs, SeedOf);
    MapResultFirstFailure(runs, SeedOf);
    if OrderedRuns(runs).Ok? {
      var s := SortBy(runs, SeedKey, IntLt);
      IntLtIsStrictTotalOrder();
      SortByFacts(runs, SeedKey, IntLt);
      SortByStable(runs, SeedKey, IntLt, k);
      forall i | 0 <= i < |s| ensures SeedOf(s[i]) == Ok(SeedKey(s[i])) {
        assert s[i] in multiset(runs);
      }
    }
  }

  // ---------------------------------------------------------------------------------------
  // One run (scripts/aggregate.py:151-252)

  /** `open(path)` on an existing path: the file's contents, or a failure for a directory. */
  function OpenFile(fs: FileSystem, path: string): Result<CsvFile> {
    if path in fs.files then Ok(fs.files[path]) else Err(CannotOpen(path))
  }

  /** The existence checks of the per-run loop, in the script's order (the genotype
      systematics file is not checked), then what opening each input yields. */
  function RunFilesOf(fs: FileSystem, run: string): Result<RunFiles> {
    var config := JoinPath(run, RUN_CONFIG_FILE);
    var data := JoinPath(run, DATA_FILE);
    var phylo := JoinPath(run, PHYLODIVERSITY_FILE);
    var phen := JoinPath(run, PHEN_SYSTEMATICS_FILE);
    if !Exists(fs, config) then Err(MissingRunFile(config))
    else if !Exists(fs, data) then Err(MissingRunFile(data))
    else if !Exists(fs, phylo) then Err(MissingRunFile(phylo))
    else if !Exists(fs, phen) then Err(MissingRunFile(phen))
    else Ok(RunFiles(OpenFile(fs, config), OpenFile(fs, data), OpenFile(fs, phylo), OpenFile(fs, phen)))
  }

  /** Everything the script does for one run directory. */
  ghost function RunResult(fs: FileSystem, run: string, byEvals: bool, resolution: int): Result<RunOutput>
    requires resolution >= 1
  {
    var files :- RunFilesOf(fs, run);
    RunOutcome(run, files, byEvals, resolution)
  }

  /** Reads the run's three data files and merges them, `merge_data` sorting its list in
      place. */
  method ReadRunRows(run: string, files: RunFiles) returns (r: Result<seq<Row>>)
    ensures r == RunRows(run, files)
  {
    if files.data.Err? {
      return Err(files.data.error);
    }
    var data := ReadCsv(JoinPath(run, DATA_FILE), files.data.value);
    if data.Err? {
      return Err(data.error);
    }
    if files.phylo.Err? {
      return Err(files.phylo.error);
    }
    var phylo := ReadCsv(JoinPath(run, PHYLODIVERSITY_FILE), files.phylo.value);
    if phylo.Err? {
      return Err(phylo.error);
    }
    if files.phen.Err? {
      return Err(files.phen.error);
    }
    var phen := ReadCsv(JoinPath(run, PHEN_SYSTEMATICS_FILE), files.phen.value);
    if phen.Err? {
      return Err(phen.error);
    }
    var all := data.value + phylo.value + phen.value;
    var dataList := new Row[|all|](i requires 0 <= i < |all| => all[i]);
    assert dataList[..] == all;
    r := MergeData(dataList);
  }

  /** From the merged rows to the run's header and output rows, the line dictionaries
      enriched one by one and the rows built one by one. */
  method ReportRun(run: string, config: RunConfig, merged: seq<Row>, byEvals: bool, resolution: int)
    returns (r: Result<RunOutput>)
    requires resolution >= 1
    ensures r == RunReport(run, config, merged, byEvals, resolution)
  {
    var settings := config.settings;
    var setup := config.setup;
    var unfinished := IsUnfinished(merged, setup.maxGen);
    if unfinished.Err? {
      return Err(unfinished.error);
    }
    var points, lineKeys := EnrichAll(merged, run, setup, settings);
    if points.Err? {
      return Err(points.error);
    }
    var kept := FilterPoints(points.value, byEvals, resolution, setup.maxGen);
    var dataFields := DataFields(lineKeys);
    var configFields := ConfigFields(settings);
    var fields := BuildFields(dataFields, configFields);
    SortedFieldsSpec(dataFields, configFields, fields);
    RowShape(map[], fields, dataFields, configFields, settings);
    var rows := EmitRows(kept, fields, dataFields, configFields, settings);
    r := Ok(RunOutput(Join(fields, ","), unfinished.value, rows));
  }

  /** The rows appended to `time_series_info`, one per kept line. */
  method EmitRows(kept: seq<Point>, fields: seq<string>, dataFields: set<string>, configFields: set<string>,
                  settings: Settings) returns (rows: seq<seq<Value>>)
    requires configFields <= settings.Keys
    requires forall f :: f in fields ==> f in dataFields || f in configFields
    ensures rows == EmittedRows(kept, fields, dataFields, configFields, settings)
  {
    rows := [];
    for i := 0 to |kept|
      invariant rows == EmittedRows(kept[..i], fields, dataFields, configFields, settings)
    {
      rows := rows + [Cells(kept[i].line, fields, dataFields, configFields, settings)];
    }
    assert kept[..|kept|] == kept;
  }

  /** The body of the per-run loop for one run directory. */
  method ProcessRun(fs: FileSystem, run: string, byEvals: bool, resolution: int) returns (r: Result<RunOutput>)
    requires resolution >= 1
    ensures r == RunResult(fs, run, byEvals, resolution)
  {
    var files := RunFilesOf(fs, run);
    if files.Err? {
      return Err(files.error);
    }
    var config := RunConfigOf(files.value);
    if config.Err? {
      return Err(config.error);
    }
    var merged := ReadRunRows(run, files.value);
    if merged.Err? {
      return Err(merged.error);
    }
    r := ReportRun(run, config.value, merged.value, byEvals, resolution);
  }

  // ---------------------------------------------------------------------------------------
  // All runs (scripts/aggregate.py:139-252)

  /** The state `main` builds across runs: the header set, `time_series_info` and
      `unfinished_runs`. */
  datatype Collected = Collected(headers: set<string>, rows: seq<seq<Value>>, unfinished: seq<string>)

  /** What one run contributes, as a function of the run directory. */
  ghost function RunStep(fs: FileSystem, byEvals: bool, resolution: int): string -> Result<RunOutput>
    requires resolution >= 1
  {
    run => RunResult(fs, run, byEvals, resolution)
  }

  /** The state after one more run: its header joins the set, and a second distinct
      header stops the loop; otherwise its rows are appended, and the run too when it is
      unfinished. */
  function AddOutput(before: Collected, run: string, out: Result<RunOutput>): Result<Collected> {
    var o :- out;
    var headers := before.headers + {o.header};
    if |headers| > 1 then Err(HeaderMismatch(run))
    else Ok(Collected(headers, before.rows + o.rows, before.unfinished + (if o.unfinished then [run] else [])))
  }

  /** The per-run loop over `runs` in order, `step` giving what each run contributes. */
  function CollectRuns(runs: seq<string>, step: string -> Result<RunOutput>): Result<Collected> {
    if runs == [] then Ok(Collected({}, [], []))
    else
      var before :- CollectRuns(runs[..|runs| - 1], step);
      AddOutput(before, runs[|runs| - 1], step(runs[|runs| - 1]))
  }

  /** Run `i` of `runs` is `r`, succeeds, and is unfinished. */
  predicate UnfinishedAt(runs: seq<string>, step: string -> Result<RunOutput>, r: string, i: int) {
    0 <= i < |runs| && runs[i] == r && step(r).Ok? && step(r).value.unfinished
  }

  /** When the loop completes, every run succeeded and produced the one header in the set
      (so all runs agree on it), and the set is empty only when there were no runs. */
  lemma {:induction false} CollectRunsHeaders(runs: seq<string>, step: string -> Result<RunOutput>)
    ensures CollectRuns(runs, step).Ok? ==>
      var c := CollectRuns(runs, step).value;
      && |c.headers| <= 1
      && (c.headers == {} <==> runs == [])
      && (forall i :: 0 <= i < |runs| ==> step(runs[i]).Ok? && step(runs[i]).value.header in c.headers)
  {
    if runs != [] && CollectRuns(runs, step).Ok? {
      var p := runs[..|runs| - 1];
      var last := |runs| - 1;
      CollectRunsHeaders(p, step);
      var before := CollectRuns(p, step).value;
      var c := CollectRuns(runs, step).value;
      assert c.headers == before.headers + {step(runs[last]).value.header};
      forall i | 0 <= i < |runs|
        ensures step(runs[i]).Ok? && step(runs[i]).value.header in c.headers
      {
        if i < last {
          assert runs[i] == p[i];
        }
      }
    }
  }

  /** When the loop completes, the unfinished runs are exactly the runs whose merged data
      lack the last generation. */
  lemma {:induction false} CollectRunsUnfinished(runs: seq<string>, step: string -> Result<RunOutput>, r: string)
    ensures CollectRuns(runs, step).Ok? ==>
      (r in CollectRuns(runs, step).value.unfinished <==> exists i :: UnfinishedAt(runs, step, r, i))
  {
    if runs != [] && CollectRuns(runs, step).Ok? {
      var p := runs[..|runs| - 1];
      var last := |runs| - 1;
      CollectRunsUnfinished(p, step, r);
      var before := CollectRuns(p, step).value;
      var c := CollectRuns(runs, step).value;
      var out := step(runs[last]).value;
      assert c.unfinished == before.unfinished + (if out.unfinished then [runs[last]] else []);
      if out.unfinished && r == runs[last] {
        assert UnfinishedAt(runs, step, r, last);
      }
      if i :| UnfinishedAt(p, step, r, i) {
        assert UnfinishedAt(runs, step, r, i);
      }
      if i :| UnfinishedAt(runs, step, r, i) {
        if i < last {
          assert UnfinishedAt(p, step, r, i);
        }
      }
    }
  }

  /** Once a prefix of the runs fails, the loop fails the same way. */
  lemma {:induction false} CollectRunsPrefixFails(runs: seq<string>, i: nat, step: string -> Result<RunOutput>)
    requires i <= |runs| && CollectRuns(runs[..i], step).Err?
    ensures CollectRuns(runs, step) == CollectRuns(runs[..i], step)
    decreases |runs| - i
  {
    if i < |runs| {
      assert runs[..i + 1][..i] == runs[..i];
      CollectRunsPrefixFails(runs, i + 1, step);
    } else {
      assert runs[..i] == runs;
    }
  }

  /** The end of one pass of the per-run loop of `main`, on its state `headers`, `rows`
      and `unfinished` and the output of the run. */
  method AddRun(run: string, out: Result<RunOutput>, headers: set<string>, rows: seq<seq<Value>>,
                unfinished: seq<string>) returns (r: Result<Collected>)
    ensures r == AddOutput(Collected(headers, rows, unfinished), run, out)
  {
    if out.Err? {
      return Err(out.error);
    }
    var unfinished' := unfinished;
    if out.value.unfinished {
      unfinished' := unfinished + [run];
    }
    var headers' := headers + {out.value.header};
    if |headers'| > 1 {
      return Err(HeaderMismatch(run));
    }
    assert unfinished' == unfinished + (if out.value.unfinished then [run] else []);
    r := Ok(Collected(headers', rows + out.value.rows, unfinished'));
  }

  /** The per-run loop of `main`. */
  method CollectAll(fs: FileSystem, runs: seq<string>, byEvals: bool, resolution: int) returns (r: Result<Collected>)
    requires resolution >= 1
    ensures r == CollectRuns(runs, RunStep(fs, byEvals, resolution))
  {
    ghost var step := RunStep(fs, byEvals, resolution);
    var c := Collected({}, [], []);
    for i := 0 to |runs|
      invariant CollectRuns(runs[..i], step) == Ok(c)
    {
      assert runs[..i + 1][..i] == runs[..i];
      var out := ProcessRun(fs, runs[i], byEvals, resolution);
      assert out == step(runs[i]);
      var next := AddRun(runs[i], out, c.headers, c.rows, c.unfinished);
      if next.Err? {
        CollectRunsPrefixFails(runs, i + 1, step);
        return next;
      }
      c := next.value;
    }
    assert runs[..|runs|] == runs;
    r := Ok(c);
  }

  /** `run_dirs.sort(...)`, in place on a list. */
  method OrderRuns(found: seq<string>) returns (r: Result<seq<string>>)
    ensures r == OrderedRuns(found)
  {
    var seeds := MapResult(found, SeedOf);
    if seeds.Err? {
      return Err(seeds.error);
    }
    var runDirs := new string[|found|](i requires 0 <= i < |found| => found[i]);
    assert runDirs[..] == found;
    IntLtIsStrictTotalOrder();
    SortInPlace(runDirs, SeedKey, IntLt);
    r := Ok(runDirs[..]);
  }

  /** `main` from the directory check to the header written out, with the test that
      accepts entry `e` of data directory `d` as a run directory as a parameter (the
      script's own test is `RunDirTestAsWritten(fs)`, the evidently intended one
      `RunDirTest(fs)`): the failures in the script's order, then the collected state,
      whose header set must not be empty (`list(time_series_header_set)[0]`). */
  ghost function AggregateOutcome(fs: FileSystem, dataDirs: seq<string>, keep: (string, string) -> bool,
                                  byEvals: bool, resolution: int): Result<Collected> {
    if exists i :: 0 <= i < |dataDirs| && !Exists(fs, dataDirs[i]) then Err(MissingDataDirectory)
    else if resolution < 1 then Err(BadResolution)
    else
      var found :- Discover(fs, dataDirs, keep);
      var runs :- OrderedRuns(found);
      var c :- CollectRuns(runs, RunStep(fs, byEvals, resolution));
      if c.headers == {} then Err(IndexOutOfRange) else Ok(c)
  }

  /** The script's exits before any run is read, and its failure when no run is found. */
  lemma AggregateOutcomeExits(fs: FileSystem, dataDirs: seq<string>, keep: (string, string) -> bool,
                              byEvals: bool, resolution: int)
    ensures (exists i :: 0 <= i < |dataDirs| && !Exists(fs, dataDirs[i])) ==>
      AggregateOutcome(fs, dataDirs, keep, byEvals, resolution) == Err(MissingDataDirectory)
    ensures (forall i :: 0 <= i < |dataDirs| ==> Exists(fs, dataDirs[i])) && resolution < 1 ==>
      AggregateOutcome(fs, dataDirs, keep, byEvals, resolution) == Err(BadResolution)
    ensures resolution >= 1 && Discover(fs, dataDirs, keep) == Ok([]) &&
            (forall i :: 0 <= i < |dataDirs| ==> Exists(fs, dataDirs[i])) ==>
      AggregateOutcome(fs, dataDirs, keep, byEvals, resolution) == Err(IndexOutOfRange)
  {
    if resolution >= 1 && Discover(fs, dataDirs, keep) == Ok([]) {
      assert OrderedRuns([]) == Ok([]);
    }
  }

  /** With the script's own directory test, a data directory `d` that lists only `e`,
      where `d/e` is a directory and the working directory has no `e`, makes `main` find
      no run and fail on the empty header set, although the intended test finds `d/e`. */
  lemma MainAsWrittenFindsNoRun(d: string, e: string, byEvals: bool, resolution: int)
    requires d != [] && e != d && Contains(e, RUN_DIR_IDENTIFIER) && resolution >= 1
    ensures var fs := FileSystem(map[d := [e], JoinPath(d, e) := []], map[]);
      && AggregateOutcome(fs, [d], RunDirTestAsWritten(fs), byEvals, resolution) == Err(IndexOutOfRange)
      && DiscoverRuns(fs, [d]) == Ok([JoinPath(d, e)])
  {
    var fs := FileSystem(map[d := [e], JoinPath(d, e) := []], map[]);
    DiscoveryAsWrittenMissesRun(d, e);
    assert Exists(fs, [d][0]);
    AggregateOutcomeExits(fs, [d], RunDirTestAsWritten(fs), byEvals, resolution);
  }

  /** The loop over any ordering of the runs found: on success every run found succeeded
      and produced the one header, and the unfinished runs are exactly the unfinished runs
      found. */
  lemma CollectReordered(found: seq<string>, runs: seq<string>, step: string -> Result<RunOutput>, run: string)
    requires multiset(runs) == multiset(found) && CollectRuns(runs, step).Ok?
    ensures var c := CollectRuns(runs, step).value;
      && |c.headers| <= 1
      && (c.headers == {} <==> found == [])
      && (run in found ==> step(run).Ok? && step(run).value.header in c.headers)
      && (run in c.unfinished <==> run in found && step(run).Ok? && step(run).value.unfinished)
  {
    CollectRunsHeaders(runs, step);
    CollectRunsUnfinished(runs, step, run);
    assert |runs| == |found| by {
      assert |multiset(runs)| == |multiset(found)|;
    }
    if run in found {
      assert run in multiset(runs);
      var i :| 0 <= i < |runs| && runs[i] == run;
      if step(run).Ok? && step(run).value.unfinished {
        assert UnfinishedAt(runs, step, run, i);
      }
    }
    if i :| UnfinishedAt(runs, step, run, i) {
      assert run in multiset(found);
    }
  }

  /** On success the header set holds exactly one header, every run found succeeded and
      produced it, and the unfinished runs reported are exactly the unfinished runs found;
      this holds for the script's directory test and for the intended one alike. */
  lemma AggregateOneHeader(fs: FileSystem, dataDirs: seq<string>, keep: (string, string) -> bool,
                           byEvals: bool, resolution: int, run: string)
    requires AggregateOutcome(fs, dataDirs, keep, byEvals, resolution).Ok?
    ensures resolution >= 1 && Discover(fs, dataDirs, keep).Ok?
    ensures var c := AggregateOutcome(fs, dataDirs, keep, byEvals, resolution).value;
      var step := RunStep(fs, byEvals, resolution);
      && |c.headers| == 1
      && (run in Discover(fs, dataDirs, keep).value ==> step(run).Ok? && step(run).value.header in c.headers)
      && (run in c.unfinished <==>
            run in Discover(fs, dataDirs, keep).value && step(run).Ok? && step(run).value.unfinished)
  {
    var found := Discover(fs, dataDirs, keep).value;
    OrderedRunsSpec(found, 0);
    var runs := OrderedRuns(found).value;
    CollectReordered(found, runs, RunStep(fs, byEvals, resolution), run);
    var c := CollectRuns(runs, RunStep(fs, byEvals, resolution)).value;
    assert c.headers != {};
  }

  /** What the script writes: the header line and the rows, and the unfinished runs it
      reports. */
  datatype Output = Output(header: string, rows: seq<seq<Value>>, unfinishedRuns: seq<string>)

  lemma SingletonSet(s: set<string>, h: string)
    requires |s| <= 1 && h in s
    ensures s == {h}
  {
    var t := s - {h};
    assert s == t + {h};
    assert |t| == 0;
  }

  /** `main`, with the run-directory test as a parameter: `RunDirTestAsWritten(fs)` is the
      script as written, `RunDirTest(fs)` the evidently intended script. */
  method AggregateRuns(fs: FileSystem, dataDirs: seq<string>, keep: (string, string) -> bool,
                       byEvals: bool, resolution: int) returns (r: Result<Output>)
    ensures match AggregateOutcome(fs, dataDirs, keep, byEvals, resolution)
      case Err(e) => r == Err(e)
      case Ok(c) =>
        r.Ok? && {r.value.header} == c.headers && r.value.rows == c.rows && r.value.unfinishedRuns == c.unfinished
  {
    if exists i :: 0 <= i < |dataDirs| && !Exists(fs, dataDirs[i]) {
      return Err(MissingDataDirectory);
    }
    if resolution < 1 {
      return Err(BadResolution);
    }
    var found := Discover(fs, dataDirs, keep);
    if found.Err? {
      return Err(found.error);
    }
    var runs := OrderRuns(found.value);
    if runs.Err? {
      return Err(runs.error);
    }
    var c := CollectAll(fs, runs.value, byEvals, resolution);
    if c.Err? {
      return Err(c.error);
    }
    if c.value.headers == {} {
      return Err(IndexOutOfRange);
    }
    CollectRunsHeaders(runs.value, RunStep(fs, byEvals, resolution));
    var h :| h in c.value.headers;
    SingletonSet(c.value.headers, h);
    r := Ok(Output(h, c.value.rows, c.value.unfinished));
  }
}
