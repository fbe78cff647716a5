/** `read_csv` (scripts/aggregate.py:49-72): the header line of a metrics file is split on
    commas and normalised in place (the generation column becomes `gen`; the columns of
    phenotype and genotype files get a prefix), then every parsed record becomes a row
    mapping each header name to the field at the same position. */
module Header {
  import opened Common
  import opened Strings

  type Row = map<string, string>

  /** One CSV file as the script sees it: the first line, and the remaining lines as
      `csv.reader` splits them into fields. */
  datatype CsvFile = CsvFile(headerLine: string, records: seq<seq<string>>)

  const GEN: string := "gen"
  const UPDATE: string := "update"
  const GENERATION: string := "generation"
  const PHENOTYPE_MARK: string := "phenotype"
  const GENOTYPE_MARK: string := "genotype"
  const PHENOTYPE_PREFIX: string := "phen_"
  const GENOTYPE_PREFIX: string := "gen_"

  /** Python's `h.index(x)`: the position of the first `x`. */
  function FirstIndex(h: seq<string>, x: string): (i: nat)
    requires x in h
    ensures i < |h| && h[i] == x
    ensures forall k :: 0 <= k < i ==> h[k] != x
  {
    if h[0] == x then 0 else 1 + FirstIndex(h[1..], x)
  }

  /** The header after the rename step: the first `update` becomes `gen`, or, when there
      is no `update`, the first `generation` does. */
  function Renamed(h: seq<string>): seq<string> {
    if UPDATE in h then h[FirstIndex(h, UPDATE) := GEN]
    else if GENERATION in h then h[FirstIndex(h, GENERATION) := GEN]
    else h
  }

  /** Every name other than `gen` gets `prefix` in front. */
  function Prefixed(h: seq<string>, prefix: string): seq<string> {
    seq(|h|, i requires 0 <= i < |h| => if h[i] == GEN then GEN else prefix + h[i])
  }

  /** The header of the file at `path` once `read_csv` has normalised it. */
  function NormalizedHeader(h: seq<string>, path: string): (r: seq<string>)
    ensures |r| == |h|
  {
    var renamed := Renamed(h);
    var phen := if Contains(path, PHENOTYPE_MARK) then Prefixed(renamed, PHENOTYPE_PREFIX) else renamed;
    if Contains(path, GENOTYPE_MARK) then Prefixed(phen, GENOTYPE_PREFIX) else phen
  }

  /** The prefixes a path calls for, outermost first: `gen_` from the second pass, then `phen_`. */
  function PrefixFor(path: string): string {
    (if Contains(path, GENOTYPE_MARK) then GENOTYPE_PREFIX else "")
    + (if Contains(path, PHENOTYPE_MARK) then PHENOTYPE_PREFIX else "")
  }

  /** Only the first `update` is renamed; without `update`, only the first `generation`;
      every other name stays where it was. */
  lemma RenamedSpec(h: seq<string>, j: nat)
    requires j < |h|
    ensures |Renamed(h)| == |h|
    ensures UPDATE in h && h[j] == UPDATE && (forall k :: 0 <= k < j ==> h[k] != UPDATE)
      ==> Renamed(h) == h[j := GEN]
    ensures UPDATE !in h && h[j] == GENERATION && (forall k :: 0 <= k < j ==> h[k] != GENERATION)
      ==> Renamed(h) == h[j := GEN]
    ensures UPDATE !in h && GENERATION !in h ==> Renamed(h) == h
  {
    if UPDATE in h && h[j] == UPDATE && (forall k :: 0 <= k < j ==> h[k] != UPDATE) {
      var f := FirstIndex(h, UPDATE);
      assert !(f < j) && !(j < f);
    }
    if UPDATE !in h && h[j] == GENERATION && (forall k :: 0 <= k < j ==> h[k] != GENERATION) {
      var f := FirstIndex(h, GENERATION);
      assert !(f < j) && !(j < f);
    }
  }

  /** After normalisation every renamed name other than `gen` carries the prefixes the
      path calls for (`phen_` for a phenotype file, `gen_` for a genotype file), and
      `gen` itself is never prefixed: a name is `gen` afterwards exactly when it was
      `gen` after the rename. */
  lemma NormalizedHeaderSpec(h: seq<string>, path: string, i: nat)
    requires i < |h|
    ensures var r := Renamed(h);
      NormalizedHeader(h, path)[i] == (if r[i] == GEN then GEN else PrefixFor(path) + r[i])
    ensures NormalizedHeader(h, path)[i] == GEN <==> Renamed(h)[i] == GEN
  {
    var r := Renamed(h);
    var n := NormalizedHeader(h, path);
    if r[i] != GEN {
      var p := PrefixFor(path);
      if Contains(path, GENOTYPE_MARK) {
        assert |GENOTYPE_PREFIX + r[i]| > |GEN|;
        if Contains(path, PHENOTYPE_MARK) {
          assert n[i] == GENOTYPE_PREFIX + (PHENOTYPE_PREFIX + r[i]);
          assert p + r[i] == GENOTYPE_PREFIX + (PHENOTYPE_PREFIX + r[i]);
        }
      } else if Contains(path, PHENOTYPE_MARK) {
        assert |PHENOTYPE_PREFIX + r[i]| > |GEN|;
      } else {
        assert p == "";
        assert p + r[i] == r[i];
      }
      assert n[i] != GEN by {
        if Contains(path, GENOTYPE_MARK) || Contains(path, PHENOTYPE_MARK) {
          assert |n[i]| > |GEN|;
        }
      }
    }
  }

  /** Python's `header.index(x)` on the header list, by a linear search. */
  method IndexOf(a: array<string>, x: string) returns (i: nat)
    requires x in a[..]
    ensures i < a.Length && a[i] == x
    ensures forall k :: 0 <= k < i ==> a[k] != x
  {
    i := 0;
    while a[i] != x
      invariant i < a.Length
      invariant x in a[i..]
      invariant forall k :: 0 <= k < i ==> a[k] != x
      decreases a.Length - i
    {
      assert a[i..] == [a[i]] + a[i + 1..];
      i := i + 1;
    }
  }

  /** The loop of scripts/aggregate.py:60-62 (and 65-67) over the header list. */
  method PrefixInPlace(a: array<string>, prefix: string)
    modifies a
    ensures a[..] == Prefixed(old(a[..]), prefix)
  {
    for i := 0 to a.Length
      invariant a[..i] == Prefixed(old(a[..]), prefix)[..i]
      invariant a[i..] == old(a[..])[i..]
    {
      ghost var before := a[..];
      if a[i] != GEN {
        a[i] := prefix + a[i];
      }
      assert a[i + 1..] == before[i + 1..];
      assert a[..i + 1] == Prefixed(old(a[..]), prefix)[..i + 1];
    }
    assert a[..] == a[..a.Length];
  }

  /** Header normalisation in place, as scripts/aggregate.py:54-67 does it. */
  method NormalizeHeader(a: array<string>, path: string)
    modifies a
    ensures a[..] == NormalizedHeader(old(a[..]), path)
  {
    if UPDATE in a[..] {
      var i := IndexOf(a, UPDATE);
      a[i] := GEN;
    } else if GENERATION in a[..] {
      var i := IndexOf(a, GENERATION);
      a[i] := GEN;
    }
    assert a[..] == Renamed(old(a[..]));
    if Contains(path, PHENOTYPE_MARK) {
      PrefixInPlace(a, PHENOTYPE_PREFIX);
    }
    if Contains(path, GENOTYPE_MARK) {
      PrefixInPlace(a, GENOTYPE_PREFIX);
    }
  }

  /** `{header[i]: record[i] for i in range(len(header))}` for a record at least as long as
      the header; a later column wins over an earlier one with the same name. */
  function Zip(header: seq<string>, record: seq<string>): Row
    requires |header| <= |record|
  {
    if header == [] then map[]
    else Zip(header[..|header| - 1], record)[header[|header| - 1] := record[|header| - 1]]
  }

  /** The row built from one record: IndexError when the record has fewer fields than the header. */
  function RowOf(header: seq<string>, record: seq<string>): Result<Row> {
    if |record| < |header| then Err(IndexOutOfRange) else Ok(Zip(header, record))
  }

  /** The rows of all records, in order, or the error of the first bad record. */
  function RowsOf(header: seq<string>, records: seq<seq<string>>): Result<seq<Row>> {
    if records == [] then Ok([])
    else
      var row :- RowOf(header, records[0]);
      var rest :- RowsOf(header, records[1..]);
      Ok([row] + rest)
  }

  /** The rows `read_csv` returns for the file at `path`. */
  function CsvRows(path: string, file: CsvFile): Result<seq<Row>> {
    RowsOf(NormalizedHeader(Split(file.headerLine, ','), path), file.records)
  }

  /** A row has exactly the header's names as keys, and the value of each name is the
      field under its last column. */
  lemma {:induction false} ZipSpec(header: seq<string>, record: seq<string>)
    requires |header| <= |record|
    ensures Zip(header, record).Keys == set i | 0 <= i < |header| :: header[i]
    ensures forall i :: 0 <= i < |header| ==>
              (forall j :: i < j < |header| ==> header[j] != header[i]) ==> Zip(header, record)[header[i]] == record[i]
  {
    if header != [] {
      var p := header[..|header| - 1];
      ZipSpec(p, record);
      var keys := set i | 0 <= i < |header| :: header[i];
      var pkeys := set i | 0 <= i < |p| :: p[i];
      assert keys == pkeys + {header[|header| - 1]} by {
        forall x | x in keys ensures x in pkeys + {header[|header| - 1]} {
          var i :| 0 <= i < |header| && header[i] == x;
          if i < |p| {
            assert p[i] == x;
          }
        }
        forall x | x in pkeys ensures x in keys {
          var i :| 0 <= i < |p| && p[i] == x;
          assert header[i] == x;
        }
      }
    }
  }

  /** Reading succeeds exactly when no record is shorter than the header; then there is
      one row per record, in order, each the zip of the header with that record. */
  lemma {:induction false} RowsOfSpec(header: seq<string>, records: seq<seq<string>>)
    ensures RowsOf(header, records).Ok? <==> forall i :: 0 <= i < |records| ==> |header| <= |records[i]|
    ensures RowsOf(header, records).Ok? ==>
      var rows := RowsOf(header, records).value;
      |rows| == |records| && forall i :: 0 <= i < |records| ==> rows[i] == Zip(header, records[i])
  {
    if records != [] {
      RowsOfSpec(header, records[1..]);
      if RowsOf(header, records).Ok? {
        var rows := RowsOf(header, records).value;
        forall i | 0 <= i < |records| ensures rows[i] == Zip(header, records[i]) {
          if i > 0 {
            assert records[1..][i - 1] == records[i];
          }
        }
      } else if |header| <= |records[0]| {
        var i :| 0 <= i < |records[1..]| && |records[1..][i]| < |header|;
        assert records[i + 1] == records[1..][i];
      }
    }
  }

  /** `read_csv` on already-split records: normalises the header in place, then builds the rows. */
  method ReadCsv(path: string, file: CsvFile) returns (r: Result<seq<Row>>)
    ensures r == CsvRows(path, file)
  {
    var names := Split(file.headerLine, ',');
    var header := new string[|names|](i requires 0 <= i < |names| => names[i]);
    assert header[..] == names;
    NormalizeHeader(header, path);
    r := RowsOf(header[..], file.records);
  }

  /** `gen` is a key of every row read from a file exactly when the normalised header has it. */
  lemma CsvRowsHaveGen(path: string, file: CsvFile)
    requires CsvRows(path, file).Ok?
    ensures var h := NormalizedHeader(Split(file.headerLine, ','), path);
      forall row :: row in CsvRows(path, file).value ==> (GEN in row <==> GEN in h)
  {
    var h := NormalizedHeader(Split(file.headerLine, ','), path);
    RowsOfSpec(h, file.records);
    var rows := CsvRows(path, file).value;
    forall row | row in rows ensures GEN in row <==> GEN in h {
      var i :| 0 <= i < |rows| && rows[i] == row;
      ZipSpec(h, file.records[i]);
      if GEN in h {
        var k :| 0 <= k < |h| && h[k] == GEN;
        assert GEN in (set j | 0 <= j < |h| :: h[j]);
      }
    }
  }

  /** The example of a phenotype file whose header reads `generation,richness`:
      it normalises to `gen,phen_richness`. */
  lemma PhenotypeHeaderExample(path: string)
    requires Contains(path, PHENOTYPE_MARK) && !Contains(path, GENOTYPE_MARK)
    ensures NormalizedHeader(["generation", "richness"], path) == ["gen", "phen_richness"]
  {
    var h := ["generation", "richness"];
    assert Renamed(h) == ["gen", "richness"] by {
      assert UPDATE !in h;
      assert FirstIndex(h, GENERATION) == 0;
    }
    var q := Prefixed(["gen", "richness"], PHENOTYPE_PREFIX);
    assert q[0] == GEN && q[1] == PHENOTYPE_PREFIX + "richness";
    assert PHENOTYPE_PREFIX + "richness" == "phen_richness";
  }
}
