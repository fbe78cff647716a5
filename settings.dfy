/** `extract_settings` (scripts/aggregate.py:93-101): a run's configuration file has a
    header naming its columns; the `parameter` and `value` columns are found by name
    (after stripping white space around each header name), and every record contributes
    one `parameter -> value` entry, a later record overwriting an earlier one. */
module Settings {
  import opened Common
  import opened Strings
  import opened Header

  type Settings = map<string, string>

  const PARAMETER: string := "parameter"
  const VALUE: string := "value"

  /** `{header[i].strip(): i for i in range(len(header))}`. */
  function HeaderLookup(header: seq<string>): map<string, nat> {
    if header == [] then map[]
    else HeaderLookup(header[..|header| - 1])[Strip(header[|header| - 1]) := |header| - 1]
  }

  /** Column `i` of `header` is called `name` once stripped. */
  predicate NamedAt(header: seq<string>, name: string, i: int) {
    0 <= i < |header| && Strip(header[i]) == name
  }

  /** A name is looked up exactly when some column carries it, once stripped. */
  lemma {:induction false} HeaderLookupKeys(header: seq<string>, name: string)
    ensures name in HeaderLookup(header) <==> exists i :: NamedAt(header, name, i)
  {
    if header != [] {
      var p := header[..|header| - 1];
      var last := |header| - 1;
      HeaderLookupKeys(p, name);
      if Strip(header[last]) == name {
        assert NamedAt(header, name, last);
      } else {
        if i :| NamedAt(p, name, i) {
          assert NamedAt(header, name, i);
        }
        if i :| NamedAt(header, name, i) {
          assert NamedAt(p, name, i);
        }
      }
    }
  }

  /** A looked-up name maps to the last column that carries it. */
  lemma {:induction false} HeaderLookupIndex(header: seq<string>, name: string)
    requires name in HeaderLookup(header)
    ensures NamedAt(header, name, HeaderLookup(header)[name])
    ensures forall j :: HeaderLookup(header)[name] < j < |header| ==> !NamedAt(header, name, j)
  {
    var p := header[..|header| - 1];
    var last := |header| - 1;
    if Strip(header[last]) != name {
      HeaderLookupIndex(p, name);
      var c := HeaderLookup(p)[name];
      assert NamedAt(header, name, c);
      forall j | c < j < |header| ensures !NamedAt(header, name, j) {
        if j < last {
          assert !NamedAt(p, name, j);
        }
      }
    }
  }

  /** The entry one configuration record contributes, with the failures of
      `param[header_lu["parameter"]]` and then `param[header_lu["value"]]`, in that order. */
  function SettingOf(record: seq<string>, lu: map<string, nat>): Result<(string, string)> {
    if PARAMETER !in lu then Err(KeyMissing(PARAMETER))
    else if lu[PARAMETER] >= |record| then Err(IndexOutOfRange)
    else if VALUE !in lu then Err(KeyMissing(VALUE))
    else if lu[VALUE] >= |record| then Err(IndexOutOfRange)
    else Ok((record[lu[PARAMETER]], record[lu[VALUE]]))
  }

  /** The dict comprehension over the records, in order: the first failing record's
      failure, or the map with later records overwriting earlier ones. */
  function SettingsOf(records: seq<seq<string>>, lu: map<string, nat>): Result<Settings> {
    if records == [] then Ok(map[])
    else
      var earlier :- SettingsOf(records[..|records| - 1], lu);
      var entry :- SettingOf(records[|records| - 1], lu);
      Ok(earlier[entry.0 := entry.1])
  }

  /** `extract_settings` on a file already split into lines and fields. */
  function ExtractSettings(file: CsvFile): Result<Settings> {
    SettingsOf(file.records, HeaderLookup(Split(file.headerLine, ',')))
  }

  /** Both named columns exist and every record reaches both of them. */
  predicate WellFormed(records: seq<seq<string>>, lu: map<string, nat>) {
    && PARAMETER in lu && VALUE in lu
    && forall i :: 0 <= i < |records| ==> lu[PARAMETER] < |records[i]| && lu[VALUE] < |records[i]|
  }

  /** Record `i` names parameter `k`. */
  predicate NamesAt(records: seq<seq<string>>, col: nat, k: string, i: int) {
    0 <= i < |records| && col < |records[i]| && records[i][col] == k
  }

  /** Record `i` is the last record naming parameter `k`. */
  predicate LastNamesAt(records: seq<seq<string>>, col: nat, k: string, i: int) {
    NamesAt(records, col, k, i) && forall j :: i < j < |records| ==> !NamesAt(records, col, k, j)
  }

  /** The settings are extracted exactly when there are no records at all, or both named
      columns exist and every record reaches them. */
  lemma {:induction false} SettingsOfOk(records: seq<seq<string>>, lu: map<string, nat>)
    ensures SettingsOf(records, lu).Ok? <==> records == [] || WellFormed(records, lu)
  {
    if records != [] {
      var p := records[..|records| - 1];
      SettingsOfOk(p, lu);
      if SettingsOf(records, lu).Ok? {
        assert SettingsOf(p, lu).Ok?;
        assert SettingOf(records[|records| - 1], lu).Ok?;
        forall i | 0 <= i < |records| ensures lu[PARAMETER] < |records[i]| && lu[VALUE] < |records[i]| {
          if i < |p| {
            assert records[i] == p[i];
          }
        }
      }
      if WellFormed(records, lu) {
        assert p == [] || WellFormed(p, lu) by {
          forall i | 0 <= i < |p| ensures lu[PARAMETER] < |p[i]| && lu[VALUE] < |p[i]| {
            assert p[i] == records[i];
          }
        }
      }
    }
  }

  /** Without a `parameter` column, any record at all makes the lookup raise KeyError. */
  lemma {:induction false} SettingsOfNoParameter(records: seq<seq<string>>, lu: map<string, nat>)
    requires records != [] && PARAMETER !in lu
    ensures SettingsOf(records, lu) == Err(KeyMissing(PARAMETER))
  {
    if |records| > 1 {
      SettingsOfNoParameter(records[..|records| - 1], lu);
    }
  }

  /** The extracted parameters are exactly the names in the `parameter` column. */
  lemma {:induction false} SettingsOfKeys(records: seq<seq<string>>, lu: map<string, nat>, k: string)
    requires WellFormed(records, lu)
    ensures SettingsOf(records, lu).Ok?
    ensures k in SettingsOf(records, lu).value <==> exists i :: NamesAt(records, lu[PARAMETER], k, i)
  {
    SettingsOfOk(records, lu);
    if records != [] {
      var p := records[..|records| - 1];
      var col := lu[PARAMETER];
      assert WellFormed(p, lu) by {
        forall i | 0 <= i < |p| ensures lu[PARAMETER] < |p[i]| && lu[VALUE] < |p[i]| {
          assert p[i] == records[i];
        }
      }
      SettingsOfKeys(p, lu, k);
      if i :| NamesAt(p, col, k, i) {
        assert NamesAt(records, col, k, i);
      }
      if i :| NamesAt(records, col, k, i) {
        if i < |p| {
          assert NamesAt(p, col, k, i);
        }
      }
      var last := records[|records| - 1];
      if last[col] == k {
        assert NamesAt(records, col, k, |records| - 1);
      }
    }
  }

  /** A parameter named more than once takes the value of its last record. */
  lemma {:induction false} SettingsOfValue(records: seq<seq<string>>, lu: map<string, nat>, k: string, i: int)
    requires WellFormed(records, lu)
    requires LastNamesAt(records, lu[PARAMETER], k, i)
    ensures SettingsOf(records, lu).Ok?
    ensures k in SettingsOf(records, lu).value
    ensures SettingsOf(records, lu).value[k] == records[i][lu[VALUE]]
  {
    SettingsOfKeys(records, lu, k);
    var p := records[..|records| - 1];
    var col := lu[PARAMETER];
    if i < |p| {
      assert WellFormed(p, lu) by {
        forall j | 0 <= j < |p| ensures lu[PARAMETER] < |p[j]| && lu[VALUE] < |p[j]| {
          assert p[j] == records[j];
        }
      }
      assert !NamesAt(records, col, k, |records| - 1);
      assert LastNamesAt(p, col, k, i) by {
        forall j | i < j < |p| ensures !NamesAt(p, col, k, j) {
          assert !NamesAt(records, col, k, j);
        }
      }
      SettingsOfValue(p, lu, k, i);
    }
  }

  /** `extract_settings` finds the `parameter` and `value` columns by their stripped header
      names (the last column of that name), maps every name in the `parameter` column to
      the `value` field of the last record naming it, and fails with KeyError when records
      exist but the `parameter` column does not. */
  lemma ExtractSettingsSpec(file: CsvFile, k: string, i: int)
    ensures var header := Split(file.headerLine, ',');
      var lu := HeaderLookup(header);
      && (PARAMETER in lu <==> exists c :: NamedAt(header, PARAMETER, c))
      && (VALUE in lu <==> exists c :: NamedAt(header, VALUE, c))
      && (PARAMETER in lu ==> NamedAt(header, PARAMETER, lu[PARAMETER]))
      && (VALUE in lu ==> NamedAt(header, VALUE, lu[VALUE]))
      && (ExtractSettings(file).Ok? <==> file.records == [] || WellFormed(file.records, lu))
      && (file.records != [] && PARAMETER !in lu ==> ExtractSettings(file) == Err(KeyMissing(PARAMETER)))
      && (WellFormed(file.records, lu) ==>
           (k in ExtractSettings(file).value <==> exists j :: NamesAt(file.records, lu[PARAMETER], k, j)))
      && (WellFormed(file.records, lu) && LastNamesAt(file.records, lu[PARAMETER], k, i) ==>
           k in ExtractSettings(file).value && ExtractSettings(file).value[k] == file.records[i][lu[VALUE]])
  {
    var header := Split(file.headerLine, ',');
    var lu := HeaderLookup(header);
    HeaderLookupKeys(header, PARAMETER);
    HeaderLookupKeys(header, VALUE);
    if PARAMETER in lu {
      HeaderLookupIndex(header, PARAMETER);
    }
    if VALUE in lu {
      HeaderLookupIndex(header, VALUE);
    }
    SettingsOfOk(file.records, lu);
    if file.records != [] && PARAMETER !in lu {
      SettingsOfNoParameter(file.records, lu);
    }
    if WellFormed(file.records, lu) {
      SettingsOfKeys(file.records, lu, k);
      if LastNamesAt(file.records, lu[PARAMETER], k, i) {
        SettingsOfValue(file.records, lu, k, i);
      }
    }
  }
}
