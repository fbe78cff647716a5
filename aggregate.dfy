/** What `main` (scripts/aggregate.py:184-253) does with one run once its four files are
    read: the run's settings give the selection scheme, the last generation and the test
    sample proportion; the merged rows are checked for the last generation, enriched with
    derived fields, thinned to the requested resolution, and turned into output rows over
    a sorted list of data and configuration fields. */
module Aggregate {
  import opened Common
  import opened Sorting
  import opened Strings
  import opened Numbers
  import opened Header
  import opened Merge
  import opened Settings

  /** Settings that are not copied into the output (scripts/aggregate.py:6-17). */
  const CONFIG_EXCLUDE: set<string> := {
    "MU", "FIT_SIGMA", "FIT_ALPHA", "PNORM_EXP", "NOVEL_K", "DSLEX_PROP",
    "COH_LEX_PROP", "SNAP_INTERVAL", "PRINT_INTERVAL", "OUTPUT_DIR"
  }

  /** Data fields that are not copied into the output: none. */
  const DATA_FIELD_EXCLUDE: set<string> := {}

  /** Selection scheme codes and their names (scripts/aggregate.py:23-33). */
  const SELECTION_SCHEME_MAP: map<string, string> := map[
    "0" := "MuLambda", "1" := "Tournament", "2" := "FitnessSharing",
    "3" := "NoveltySearch", "4" := "EpsilonLexicase", "5" := "DownSampledLexicase",
    "6" := "CohortLexicase", "7" := "NoveltyLexicase", "8" := "EcoEa"
  ]

  const SELECTION: string := "SELECTION"
  const MAX_GENS: string := "MAX_GENS"
  const POP_SIZE: string := "POP_SIZE"
  const OBJECTIVE_CNT: string := "OBJECTIVE_CNT"
  const DSLEX_PROP: string := "DSLEX_PROP"
  const COH_LEX_PROP: string := "COH_LEX_PROP"
  const DOWN_SAMPLED_LEXICASE: string := "DownSampledLexicase"
  const COHORT_LEXICASE: string := "CohortLexicase"

  const EVALUATIONS: string := "evaluations"
  const SELECTION_NAME: string := "selection_name"
  const TEST_SAMPLE_PROP: string := "test_sample_prop"
  const DIRECTORY: string := "directory"

  /** A cell of an enriched row: a field read from a file, or a number the script computed. */
  datatype Value = Text(text: string) | Num(x: real)

  type Line = map<string, Value>

  /** `m[k]` on a dict of strings. */
  function Lookup(m: map<string, string>, k: string): (r: Result<string>)
    ensures r.Ok? <==> k in m
    ensures r.Ok? ==> r.value == m[k]
    ensures r.Err? ==> r.error == KeyMissing(k)
  {
    if k in m then Ok(m[k]) else Err(KeyMissing(k))
  }

  /** `int(text)`. */
  function IntOf(text: string): Result<int> {
    match ParseInt(text)
    case Some(n) => Ok(n)
    case None => Err(BadInteger(text))
  }

  /** `float(text)`. */
  function FloatOf(text: string): Result<real> {
    match ParseFloat(text)
    case Some(x) => Ok(x)
    case None => Err(BadFloat(text))
  }

  // ---------------------------------------------------------------------------------
  // Run settings (scripts/aggregate.py:187-194)

  datatype RunSetup = RunSetup(selectionName: string, maxGen: int, testSampleProp: real)

  /** The selection scheme's name, the last generation, and the proportion of tests each
      evaluation samples, with the failures in the order the script meets them. */
  function SetupOf(settings: Settings): Result<RunSetup> {
    var code :- Lookup(settings, SELECTION);
    var name :- if code in SELECTION_SCHEME_MAP then Ok(SELECTION_SCHEME_MAP[code]) else Err(KeyMissing(code));
    var maxText :- Lookup(settings, MAX_GENS);
    var maxGen :- IntOf(maxText);
    var prop :-
      if name == DOWN_SAMPLED_LEXICASE then (var t :- Lookup(settings, DSLEX_PROP); FloatOf(t))
      else if name == COHORT_LEXICASE then (var t :- Lookup(settings, COH_LEX_PROP); FloatOf(t))
      else Ok(1.0);
    Ok(RunSetup(name, maxGen, prop))
  }

  /** The setup is read exactly when the selection code is present and known, `MAX_GENS`
      parses as an integer, and the down-sampled or cohort lexicase proportion parses when
      the scheme needs it. An unknown or missing code fails with KeyError; otherwise the
      setup carries the scheme's name, the parsed `MAX_GENS`, and a sample proportion of
      1.0 unless the scheme is down-sampled or cohort lexicase, which read their own
      proportion setting. */
  lemma SetupSpec(settings: Settings)
    ensures SetupOf(settings).Ok? <==>
      && SELECTION in settings && settings[SELECTION] in SELECTION_SCHEME_MAP
      && MAX_GENS in settings && ParseInt(settings[MAX_GENS]).Some?
      && (SELECTION_SCHEME_MAP[settings[SELECTION]] == DOWN_SAMPLED_LEXICASE ==>
            DSLEX_PROP in settings && ParseFloat(settings[DSLEX_PROP]).Some?)
      && (SELECTION_SCHEME_MAP[settings[SELECTION]] == COHORT_LEXICASE ==>
            COH_LEX_PROP in settings && ParseFloat(settings[COH_LEX_PROP]).Some?)
    ensures SELECTION in settings && settings[SELECTION] !in SELECTION_SCHEME_MAP
      ==> SetupOf(settings) == Err(KeyMissing(settings[SELECTION]))
    ensures SELECTION !in settings ==> SetupOf(settings) == Err(KeyMissing(SELECTION))
    ensures SetupOf(settings).Ok? ==>
      var s := SetupOf(settings).value;
      && SELECTION in settings && settings[SELECTION] in SELECTION_SCHEME_MAP
      && s.selectionName == SELECTION_SCHEME_MAP[settings[SELECTION]]
      && MAX_GENS in settings && ParseInt(settings[MAX_GENS]) == Some(s.maxGen)
      && (s.selectionName == DOWN_SAMPLED_LEXICASE ==>
            DSLEX_PROP in settings && ParseFloat(settings[DSLEX_PROP]) == Some(s.testSampleProp))
      && (s.selectionName == COHORT_LEXICASE ==>
            COH_LEX_PROP in settings && ParseFloat(settings[COH_LEX_PROP]) == Some(s.testSampleProp))
      && (s.selectionName != DOWN_SAMPLED_LEXICASE && s.selectionName != COHORT_LEXICASE ==>
            s.testSampleProp == 1.0)
  {
  }

  // ---------------------------------------------------------------------------------
  // Is the run finished? (scripts/aggregate.py:207-210)

  /** Row `i` has a `gen` that `int` reads as `n`. */
  predicate GenIs(rows: seq<Row>, n: int, i: int) {
    0 <= i < |rows| && GEN in rows[i] && ParseInt(rows[i][GEN]) == Some(n)
  }

  /** `{int(line["gen"]) for line in data}`. */
  function GenValues(rows: seq<Row>): Result<set<int>> {
    if rows == [] then Ok({})
    else
      var earlier :- GenValues(rows[..|rows| - 1]);
      var text :- Lookup(rows[|rows| - 1], GEN);
      var g :- IntOf(text);
      Ok(earlier + {g})
  }

  /** `not max_gen in gens_in_data`. */
  function IsUnfinished(rows: seq<Row>, maxGen: int): Result<bool> {
    var gens :- GenValues(rows);
    Ok(maxGen !in gens)
  }

  /** The `gen` values are read exactly when every row has an integer `gen`. */
  lemma {:induction false} GenValuesOk(rows: seq<Row>)
    ensures GenValues(rows).Ok? <==>
      forall i :: 0 <= i < |rows| ==> GEN in rows[i] && ParseInt(rows[i][GEN]).Some?
  {
    if rows != [] {
      var p := rows[..|rows| - 1];
      GenValuesOk(p);
      if GenValues(rows).Ok? {
        forall i | 0 <= i < |rows| ensures GEN in rows[i] && ParseInt(rows[i][GEN]).Some? {
          if i < |p| {
            assert p[i] == rows[i];
          }
        }
      } else if GenValues(p).Err? {
        var i :| 0 <= i < |p| && !(GEN in p[i] && ParseInt(p[i][GEN]).Some?);
        assert p[i] == rows[i];
      }
    }
  }

  /** The `gen` values read are exactly the integers the rows' `gen` fields spell. */
  lemma {:induction false} GenValuesMembers(rows: seq<Row>, n: int)
    requires GenValues(rows).Ok?
    ensures n in GenValues(rows).value <==> exists i :: GenIs(rows, n, i)
  {
    if rows != [] {
      var p := rows[..|rows| - 1];
      var last := |rows| - 1;
      GenValuesMembers(p, n);
      if i :| GenIs(p, n, i) {
        assert GenIs(rows, n, i);
      }
      if i :| GenIs(rows, n, i) {
        if i < last {
          assert GenIs(p, n, i);
        }
      }
      if ParseInt(rows[last][GEN]) == Some(n) {
        assert GenIs(rows, n, last);
      }
    }
  }

  /** A run is unfinished exactly when no merged row's `gen` reads as the last generation. */
  lemma UnfinishedSpec(rows: seq<Row>, maxGen: int)
    requires forall i :: 0 <= i < |rows| ==> GEN in rows[i] && ParseInt(rows[i][GEN]).Some?
    ensures IsUnfinished(rows, maxGen).Ok?
    ensures IsUnfinished(rows, maxGen).value <==> !exists i :: GenIs(rows, maxGen, i)
  {
    GenValuesOk(rows);
    GenValuesMembers(rows, maxGen);
  }

  // ---------------------------------------------------------------------------------
  // Derived fields (scripts/aggregate.py:103-104, 212-224)

  /** A merged row with its `gen` read as an integer, its evaluation count, and its
      fields after the derived ones are added. */
  datatype Point = Point(gen: int, evaluations: real, line: Line)

  /** `gen_to_eval`: generations times evaluations per generation. */
  function GenToEval(gen: int, popSize: int, tests: int, sampleProp: real): real {
    gen as real * (popSize as real * (tests as real * sampleProp))
  }

  /** The fields of a merged row, as text. */
  function Lift(r: Row): Line {
    map k | k in r :: Text(r[k])
  }

  /** One turn of the enrichment loop: the keyword arguments of `gen_to_eval` are
      evaluated in order, then the four derived fields are set, overwriting any column
      of the same name. */
  function EnrichLine(r: Row, run: string, setup: RunSetup, settings: Settings): Result<Point> {
    var genText :- Lookup(r, GEN);
    var gen :- IntOf(genText);
    var popText :- Lookup(settings, POP_SIZE);
    var pop :- IntOf(popText);
    var testsText :- Lookup(settings, OBJECTIVE_CNT);
    var tests :- IntOf(testsText);
    var evals := GenToEval(gen, pop, tests, setup.testSampleProp);
    Ok(Point(gen, evals, Lift(r)[EVALUATIONS := Num(evals)][SELECTION_NAME := Text(setup.selectionName)]
      [TEST_SAMPLE_PROP := Num(setup.testSampleProp)][DIRECTORY := Text(run)]))
  }

  /** The enrichment loop over all merged rows: the first failure, or one point per row. */
  function Enriched(rows: seq<Row>, run: string, setup: RunSetup, settings: Settings): Result<seq<Point>> {
    MapResult(rows, r => EnrichLine(r, run, setup, settings))
  }

  /** The four derived field names. */
  function DerivedFields(): set<string> {
    {EVALUATIONS, SELECTION_NAME, TEST_SAMPLE_PROP, DIRECTORY}
  }

  /** An enriched row keeps every field of the merged row as text, except that the four
      derived fields are set: the evaluation count (generation times population size
      times tests times sample proportion), the selection scheme's name, the sample
      proportion and the run directory. Its `gen` is the row's `gen` read as an integer. */
  lemma EnrichLineSpec(r: Row, run: string, setup: RunSetup, settings: Settings)
    ensures EnrichLine(r, run, setup, settings).Ok? <==>
      && GEN in r && ParseInt(r[GEN]).Some?
      && POP_SIZE in settings && ParseInt(settings[POP_SIZE]).Some?
      && OBJECTIVE_CNT in settings && ParseInt(settings[OBJECTIVE_CNT]).Some?
    ensures EnrichLine(r, run, setup, settings).Ok? ==>
      var p := EnrichLine(r, run, setup, settings).value;
      && Some(p.gen) == ParseInt(r[GEN])
      && p.evaluations == GenToEval(p.gen, ParseInt(settings[POP_SIZE]).value,
                                    ParseInt(settings[OBJECTIVE_CNT]).value, setup.testSampleProp)
      && p.line.Keys == r.Keys + DerivedFields()
      && p.line[EVALUATIONS] == Num(p.evaluations)
      && p.line[SELECTION_NAME] == Text(setup.selectionName)
      && p.line[TEST_SAMPLE_PROP] == Num(setup.testSampleProp)
      && p.line[DIRECTORY] == Text(run)
      && forall k :: k in r && k !in DerivedFields() ==> p.line[k] == Text(r[k])
  {
  }

  /** Enrichment succeeds exactly when every row enriches, and then gives one point per
      row, each the enrichment of the row at its position. */
  lemma EnrichedSpec(rows: seq<Row>, run: string, setup: RunSetup, settings: Settings)
    ensures Enriched(rows, run, setup, settings).Ok? <==>
      forall i :: 0 <= i < |rows| ==> EnrichLine(rows[i], run, setup, settings).Ok?
    ensures Enriched(rows, run, setup, settings).Ok? ==>
      var ps := Enriched(rows, run, setup, settings).value;
      |ps| == |rows| && forall i :: 0 <= i < |rows| ==> ps[i] == EnrichLine(rows[i], run, setup, settings).value
  {
    MapResultSpec(rows, r => EnrichLine(r, run, setup, settings));
  }

  /** The keys of the last enriched line (`line_keys` after the loop), or none. */
  function LastLineKeys(points: seq<Point>): set<string> {
    if points == [] then {} else points[|points| - 1].line.Keys
  }

  /** The enrichment loop itself: sets the derived fields of each merged row in turn and
      remembers the keys of the last one. */
  method EnrichAll(rows: seq<Row>, run: string, setup: RunSetup, settings: Settings)
    returns (r: Result<seq<Point>>, lineKeys: set<string>)
    ensures r == Enriched(rows, run, setup, settings)
    ensures r.Ok? ==> lineKeys == LastLineKeys(r.value)
  {
    var points: seq<Point> := [];
    lineKeys := {};
    for i := 0 to |rows|
      invariant Enriched(rows[..i], run, setup, settings) == Ok(points)
      invariant lineKeys == LastLineKeys(points)
    {
      assert rows[..i + 1][..i] == rows[..i];
      var p := EnrichLine(rows[i], run, setup, settings);
      if p.Err? {
        MapResultPrefixFails(rows, i + 1, r => EnrichLine(r, run, setup, settings));
        return Err(p.error), lineKeys;
      }
      points := points + [p.value];
      lineKeys := p.value.line.Keys;
    }
    assert rows[..|rows|] == rows;
    r := Ok(points);
  }

  // ---------------------------------------------------------------------------------
  // Resolution filter (scripts/aggregate.py:226-228)

  /** `keep_line`: a multiple of the resolution, or the last generation. */
  predicate KeepLine(x: int, resolution: int, maxGen: int)
    requires resolution >= 1
  {
    x % resolution == 0 || x == maxGen
  }

  /** The number the filter looks at: `int(line["evaluations"])`, rounded toward zero, in
      evaluations mode, else `int(line["gen"])`. */
  function Measure(p: Point, byEvals: bool): int {
    if byEvals then Trunc(p.evaluations) else p.gen
  }

  /** The filter comprehension. In both modes the measure is compared with the last
      generation, as the script does. */
  function FilterPoints(ps: seq<Point>, byEvals: bool, resolution: int, maxGen: int): seq<Point>
    requires resolution >= 1
  {
    if ps == [] then []
    else (if KeepLine(Measure(ps[0], byEvals), resolution, maxGen) then [ps[0]] else [])
         + FilterPoints(ps[1..], byEvals, resolution, maxGen)
  }

  /** The filter keeps exactly the points whose measure is a multiple of the resolution or
      equals the last generation, and never adds any. */
  lemma {:induction false} FilterPointsMembers(ps: seq<Point>, byEvals: bool, resolution: int, maxGen: int)
    requires resolution >= 1
    ensures forall p :: (p in FilterPoints(ps, byEvals, resolution, maxGen) <==>
      p in ps && KeepLine(Measure(p, byEvals), resolution, maxGen))
    ensures |FilterPoints(ps, byEvals, resolution, maxGen)| <= |ps|
  {
    if ps != [] {
      FilterPointsMembers(ps[1..], byEvals, resolution, maxGen);
      assert ps == [ps[0]] + ps[1..];
    }
  }

  /** The filter keeps order: filtering two runs of points one after the other is
      filtering their concatenation. */
  lemma {:induction false} FilterPointsConcat(a: seq<Point>, b: seq<Point>, byEvals: bool, resolution: int, maxGen: int)
    requires resolution >= 1
    ensures FilterPoints(a + b, byEvals, resolution, maxGen)
         == FilterPoints(a, byEvals, resolution, maxGen) + FilterPoints(b, byEvals, resolution, maxGen)
  {
    if a != [] {
      FilterPointsConcat(a[1..], b, byEvals, resolution, maxGen);
      assert (a + b)[1..] == a[1..] + b;
    } else {
      assert a + b == b;
    }
  }

  /** Filtering twice is filtering once. */
  lemma {:induction false} FilterPointsIdempotent(ps: seq<Point>, byEvals: bool, resolution: int, maxGen: int)
    requires resolution >= 1
    ensures var once := FilterPoints(ps, byEvals, resolution, maxGen);
      FilterPoints(once, byEvals, resolution, maxGen) == once
  {
    if ps != [] {
      var rest := FilterPoints(ps[1..], byEvals, resolution, maxGen);
      FilterPointsIdempotent(ps[1..], byEvals, resolution, maxGen);
      if KeepLine(Measure(ps[0], byEvals), resolution, maxGen) {
        var once := [ps[0]] + rest;
        assert FilterPoints(ps, byEvals, resolution, maxGen) == once;
        assert once[0] == ps[0] && once[1..] == rest;
        assert FilterPoints(once, byEvals, resolution, maxGen) == [ps[0]] + FilterPoints(rest, byEvals, resolution, maxGen);
      } else {
        assert FilterPoints(ps, byEvals, resolution, maxGen) == [] + rest == rest;
      }
    }
  }

  /** At resolution 1 every point is kept. */
  lemma {:induction false} FilterPointsAll(ps: seq<Point>, byEvals: bool, maxGen: int)
    ensures FilterPoints(ps, byEvals, 1, maxGen) == ps
  {
    if ps != [] {
      FilterPointsAll(ps[1..], byEvals, maxGen);
      assert [ps[0]] + ps[1..] == ps;
    }
  }

  /** A point whose measure is the last generation always survives the filter. */
  lemma FilterPointsKeepsMax(ps: seq<Point>, byEvals: bool, resolution: int, maxGen: int, i: nat)
    requires resolution >= 1 && i < |ps| && Measure(ps[i], byEvals) == maxGen
    ensures ps[i] in FilterPoints(ps, byEvals, resolution, maxGen)
  {
    FilterPointsMembers(ps, byEvals, resolution, maxGen);
  }

  // ---------------------------------------------------------------------------------
  // Output fields and rows (scripts/aggregate.py:230-252)

  /** `data_fields`: the keys of the last enriched line that are not excluded. */
  function DataFields(lineKeys: set<string>): set<string> {
    lineKeys - DATA_FIELD_EXCLUDE
  }

  /** `config_fields`: the settings that are not excluded. */
  function ConfigFields(settings: Settings): set<string> {
    settings.Keys - CONFIG_EXCLUDE
  }

  /** `fields` after `fields.sort()`: the data fields and then the configuration fields
      (a name in both appears twice), in ascending string order. */
  predicate IsFieldList(fields: seq<string>, dataFields: set<string>, configFields: set<string>) {
    && SortedBy(fields, Id, StrLt)
    && multiset(fields) == multiset(dataFields) + multiset(configFields)
  }

  /** Some listing of a set, in an order of its choosing. */
  ghost function SeqOfSet(s: set<string>): (r: seq<string>)
    ensures multiset(r) == multiset(s)
    decreases |s|
  {
    if s == {} then []
    else
      var x :| x in s;
      assert multiset(s - {x}) + multiset{x} == multiset(s);
      [x] + SeqOfSet(s - {x})
  }

  /** The sorted field list: whatever order the keys are listed in, sorting gives this one. */
  ghost function SortedFields(dataFields: set<string>, configFields: set<string>): seq<string> {
    SortBy(SeqOfSet(dataFields) + SeqOfSet(configFields), Id, StrLt)
  }

  /** `SortedFields` is a field list, and the only one. */
  lemma SortedFieldsSpec(dataFields: set<string>, configFields: set<string>, fields: seq<string>)
    ensures IsFieldList(SortedFields(dataFields, configFields), dataFields, configFields)
    ensures IsFieldList(fields, dataFields, configFields) ==> fields == SortedFields(dataFields, configFields)
  {
    StrLtIsStrictTotalOrder();
    var listing := SeqOfSet(dataFields) + SeqOfSet(configFields);
    SortByFacts(listing, Id, StrLt);
    if IsFieldList(fields, dataFields, configFields) {
      SortedUnique(fields, SortedFields(dataFields, configFields), StrLt);
    }
  }

  /** Lists the elements of a set, each once. */
  method SetToSeq(s: set<string>) returns (r: seq<string>)
    ensures multiset(r) == multiset(s)
  {
    r := [];
    var rest := s;
    while rest != {}
      invariant rest <= s
      invariant multiset(r) + multiset(rest) == multiset(s)
      decreases |rest|
    {
      var x :| x in rest;
      assert multiset(rest - {x}) + multiset{x} == multiset(rest);
      r := r + [x];
      rest := rest - {x};
    }
  }

  /** `fields = data_fields + config_fields; fields.sort()`. */
  method BuildFields(dataFields: set<string>, configFields: set<string>) returns (fields: seq<string>)
    ensures fields == SortedFields(dataFields, configFields)
  {
    var d := SetToSeq(dataFields);
    var c := SetToSeq(configFields);
    var listing := d + c;
    var a := new string[|listing|](i requires 0 <= i < |listing| => listing[i]);
    assert a[..] == listing;
    StrLtIsStrictTotalOrder();
    SortInPlace(a, Id, StrLt);
    fields := a[..];
    SortByFacts(listing, Id, StrLt);
    SortedFieldsSpec(dataFields, configFields, fields);
  }

  /** `info` for one line: every data field, with `""` where the line lacks it, then every
      configuration field with the run's setting (which wins on a shared name). */
  function Info(line: Line, dataFields: set<string>, configFields: set<string>, settings: Settings): map<string, Value>
    requires configFields <= settings.Keys
  {
    (map f | f in dataFields :: if f in line then line[f] else Text(""))
    + (map f | f in configFields :: Text(settings[f]))
  }

  /** `[info[field] for field in fields]` (before `str` and the comma join). */
  function Cells(line: Line, fields: seq<string>, dataFields: set<string>, configFields: set<string>, settings: Settings): seq<Value>
    requires configFields <= settings.Keys
    requires forall f :: f in fields ==> f in dataFields || f in configFields
  {
    var info := Info(line, dataFields, configFields, settings);
    seq(|fields|, i requires 0 <= i < |fields| => info[fields[i]])
  }

  /** Every emitted row has one cell per field, in field order: a configuration field holds
      the run's setting, a data field holds the line's value, or `""` when the line has
      none. */
  lemma RowShape(line: Line, fields: seq<string>, dataFields: set<string>, configFields: set<string>,
                 settings: Settings)
    requires configFields <= settings.Keys
    requires IsFieldList(fields, dataFields, configFields)
    ensures forall f :: f in fields ==> f in dataFields || f in configFields
    ensures var cells := Cells(line, fields, dataFields, configFields, settings);
      && |cells| == |fields|
      && forall i :: 0 <= i < |fields| ==>
           cells[i] == if fields[i] in configFields then Text(settings[fields[i]])
                       else if fields[i] in line then line[fields[i]]
                       else Text("")
  {
    forall f | f in fields ensures f in dataFields || f in configFields {
      assert f in multiset(fields);
    }
  }

  /** The rows of one run, one per kept point, in order. */
  function EmittedRows(kept: seq<Point>, fields: seq<string>, dataFields: set<string>, configFields: set<string>,
                       settings: Settings): seq<seq<Value>>
    requires configFields <= settings.Keys
    requires forall f :: f in fields ==> f in dataFields || f in configFields
  {
    seq(|kept|, i requires 0 <= i < |kept| => Cells(kept[i].line, fields, dataFields, configFields, settings))
  }

  // ---------------------------------------------------------------------------------
  // One whole run

  const RUN_CONFIG_FILE: string := "run_config.csv"
  const DATA_FILE: string := "data.csv"
  const PHYLODIVERSITY_FILE: string := "phylodiversity.csv"
  const PHEN_SYSTEMATICS_FILE: string := "phenotype_systematics.csv"

  /** What opening each of a run's four input files yields: its contents, or the failure of
      `open` (the path exists but is a directory). */
  datatype RunFiles = RunFiles(config: Result<CsvFile>, data: Result<CsvFile>,
                               phylo: Result<CsvFile>, phen: Result<CsvFile>)

  /** What one run contributes: its header string, whether it is unfinished, its rows. */
  datatype RunOutput = RunOutput(header: string, unfinished: bool, rows: seq<seq<Value>>)

  /** `merge_data` on rows that may lack `gen`. */
  function MergedOrFail(rows: seq<Row>): Result<seq<Row>> {
    if AllHaveGen(rows) then Ok(Merged(rows)) else Err(KeyMissing(GEN))
  }

  /** A run's settings and the values `main` derives from them. */
  datatype RunConfig = RunConfig(settings: Settings, setup: RunSetup)

  /** `extract_settings` on the run's configuration file, then the derived settings
      (scripts/aggregate.py:185-194). */
  function RunConfigOf(files: RunFiles): Result<RunConfig> {
    var configFile :- files.config;
    var settings :- ExtractSettings(configFile);
    var setup :- SetupOf(settings);
    Ok(RunConfig(settings, setup))
  }

  /** The run's three data files read and merged (scripts/aggregate.py:197-204). */
  function RunRows(run: string, files: RunFiles): Result<seq<Row>> {
    var dataFile :- files.data;
    var data :- CsvRows(JoinPath(run, DATA_FILE), dataFile);
    var phyloFile :- files.phylo;
    var phylo :- CsvRows(JoinPath(run, PHYLODIVERSITY_FILE), phyloFile);
    var phenFile :- files.phen;
    var phen :- CsvRows(JoinPath(run, PHEN_SYSTEMATICS_FILE), phenFile);
    MergedOrFail(data + phylo + phen)
  }

  /** From the merged rows to the rows appended to `time_series_info`
      (scripts/aggregate.py:206-252). */
  ghost function RunReport(run: string, config: RunConfig, merged: seq<Row>, byEvals: bool, resolution: int): Result<RunOutput>
    requires resolution >= 1
  {
    var settings := config.settings;
    var setup := config.setup;
    var unfinished :- IsUnfinished(merged, setup.maxGen);
    var points :- Enriched(merged, run, setup, settings);
    var kept := FilterPoints(points, byEvals, resolution, setup.maxGen);
    var dataFields := DataFields(LastLineKeys(points));
    var configFields := ConfigFields(settings);
    var fields := SortedFields(dataFields, configFields);
    SortedFieldsSpec(dataFields, configFields, fields);
    RowShape(map[], fields, dataFields, configFields, settings);
    Ok(RunOutput(Join(fields, ","), unfinished, EmittedRows(kept, fields, dataFields, configFields, settings)))
  }

  /** The body of the per-run loop of `main`, from `extract_settings` to the rows appended
      to `time_series_info`, with the failures in the order the script meets them. */
  ghost function RunOutcome(run: string, files: RunFiles, byEvals: bool, resolution: int): Result<RunOutput>
    requires resolution >= 1
  {
    var config :- RunConfigOf(files);
    var merged :- RunRows(run, files);
    RunReport(run, config, merged, byEvals, resolution)
  }
}
