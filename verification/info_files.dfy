/**
 * The CSV record store of src/info_files_helpers.py: a file that is only ever appended to,
 * whose first line is a header of field names and whose other lines are rows of values,
 * queried by a linear scan; and the log file that failures are appended to.
 *
 * A line is modelled as the list of its cells: the quoting and escaping that Python's `csv`
 * module applies to a cell are abstracted away.  `Text` renders lines the way the `csv` writer
 * does for cells without commas, quotes or line breaks, and `Split` reads such a line back.
 */
module InfoFiles {
  import opened Wrappers
  import opened BetelErrors

  /** The cells of one CSV line. */
  type Line = seq<string>

  predicate Distinct(s: seq<string>)
  {
    forall i, j :: 0 <= i < j < |s| ==> s[i] != s[j]
  }

  /** A Python dict of strings: its keys in insertion order, and its entries. */
  datatype Dict = Dict(keys: seq<string>, entries: map<string, string>)

  predicate IsDict(d: Dict)
  {
    Distinct(d.keys) && d.entries.Keys == set k | k in d.keys
  }

  /** What `add_to_data` writes and `part_of_data_set` probes with. */
  type Record = d: Dict | IsDict(d) witness Dict([], map[])

  /** The values of a record in key order: the row `DictWriter` writes for it. */
  function Values(d: Record): (cells: Line)
    ensures |cells| == |d.keys|
    ensures forall i :: 0 <= i < |d.keys| ==> cells[i] == d.entries[d.keys[i]]
  {
    seq(|d.keys|, i requires 0 <= i < |d.keys| => d.entries[d.keys[i]])
  }

  /** A row as `DictReader` yields it; `None` is the `restval` of a field the line is too short for. */
  type Row = map<string, Option<string>>

  /** A record seen as a row that `DictReader` could yield. */
  function AsRow(d: Record): (row: Row)
    ensures row.Keys == d.entries.Keys
    ensures forall k :: k in d.entries ==> row[k] == Some(d.entries[k])
  {
    map k | k in d.entries :: Some(d.entries[k])
  }

  /** `i` is the last position of its name in the header. */
  predicate LastIn(header: Line, i: int)
    requires 0 <= i < |header|
  {
    forall j :: i < j < |header| ==> header[j] != header[i]
  }

  /**
   * `DictReader`'s row for one data line: `dict(zip(header, cells))`, then `restval` for every
   * header field beyond the end of the line.  Of two header fields with one name the later wins.
   * Cells beyond the header (kept by `DictReader` under the key `None`) are dropped.
   */
  function RowOf(header: Line, cells: Line): (row: Row)
    ensures row.Keys == set k | k in header
    ensures forall i :: 0 <= i < |header| && LastIn(header, i) ==>
      row[header[i]] == if i < |cells| then Some(cells[i]) else None
    decreases |header|
  {
    if header == [] then map[]
    else
      var n := |header| - 1;
      var prefix := RowOf(header[..n], cells);
      var v := if n < |cells| then Some(cells[n]) else None;
      assert header == header[..n] + [header[n]];
      RowOfExtend(header[..n], header[n], cells, prefix, v);
      prefix[header[n] := v]
  }

  /** The step of `RowOf`: the last header field is written over the row of the fields before it. */
  lemma RowOfExtend(init: Line, last: string, cells: Line, prefix: Row, v: Option<string>)
    requires prefix.Keys == set k | k in init
    requires forall i :: 0 <= i < |init| && LastIn(init, i) ==>
      prefix[init[i]] == if i < |cells| then Some(cells[i]) else None
    requires v == if |init| < |cells| then Some(cells[|init|]) else None
    ensures prefix[last := v].Keys == set k | k in init + [last]
    ensures forall i :: 0 <= i < |init| + 1 && LastIn(init + [last], i) ==>
      prefix[last := v][(init + [last])[i]] == if i < |cells| then Some(cells[i]) else None
  {
    var header, n := init + [last], |init|;
    var row := prefix[last := v];
    assert forall k :: k in header <==> k in init || k == last;
    forall i | 0 <= i < |header| && LastIn(header, i)
      ensures row[header[i]] == if i < |cells| then Some(cells[i]) else None
    {
      if i < n {
        assert header[i] != header[n];
        assert header[i] == init[i];
        forall j | i < j < n
          ensures init[j] != init[i]
        {
          assert header[j] == init[j];
        }
      }
    }
  }

  /** The rows `DictReader` yields for the lines after the header: blank lines are skipped. */
  function Decode(header: Line, body: seq<Line>): (rows: seq<Row>)
    ensures |rows| <= |body|
    decreases |body|
  {
    if body == [] then []
    else
      var n := |body| - 1;
      Decode(header, body[..n]) + if body[n] == [] then [] else [RowOf(header, body[n])]
  }

  /** The rows of a file's lines: the first line is the header, whatever it holds. */
  function Rows(lines: seq<Line>): seq<Row>
  {
    if lines == [] then [] else Decode(lines[0], lines[1..])
  }

  /** Every row read from a line holds exactly the fields of the header. */
  lemma {:induction false} DecodeKeys(header: Line, body: seq<Line>)
    ensures forall i :: 0 <= i < |Decode(header, body)| ==> Decode(header, body)[i].Keys == set k | k in header
    decreases |body|
  {
    if body != [] {
      DecodeKeys(header, body[..|body| - 1]);
    }
  }

  /** Every row of a file holds exactly the fields of its header. */
  lemma RowsKeys(lines: seq<Line>)
    ensures lines != [] ==> forall i :: 0 <= i < |Rows(lines)| ==> Rows(lines)[i].Keys == set k | k in lines[0]
  {
    if lines != [] {
      DecodeKeys(lines[0], lines[1..]);
    }
  }

  /** A store file on disk: missing, or present with its lines (an empty file has none). */
  datatype FileState = Missing | Present(lines: seq<Line>)

  datatype CsvError =
    | FileNotFound               // `open(file, "r")` of a missing file
    | MissingField(name: string) // `row[field]` for a field that is not a column

  /**
   * `add_to_data`: the file is opened for appending (and so created); if it is empty the header of
   * the record's keys is written first; then the row of the record's values.
   */
  function Appended(f: FileState, data: Record): (g: FileState)
    ensures g.Present?
  {
    var lines := if f.Present? then f.lines else [];
    if lines == [] then Present([data.keys, Values(data)]) else Present(lines + [Values(data)])
  }

  /** `read_list`: every row of the file in file order; a missing file raises. */
  function ReadAll(f: FileState): Result<seq<Row>, CsvError>
  {
    match f
    case Missing => Failure(FileNotFound)
    case Present(lines) => Success(Rows(lines))
  }

  /** The row holds every field of the probe, with the probe's value. */
  predicate RowHas(row: Row, probe: Record)
  {
    forall k :: k in probe.keys ==> k in row && row[k] == Some(probe.entries[k])
  }

  /**
   * `all(data[field] == row[field] for field in fields_to_compare)`, field by field in key order:
   * the first mismatch gives false, and a field that is not a column of the row raises KeyError
   * once every field before it has matched.
   */
  function MatchFields(fields: seq<string>, data: map<string, string>, row: Row): (r: Result<bool, CsvError>)
    requires forall f :: f in fields ==> f in data
    ensures (forall f :: f in fields ==> f in row) ==>
      r == Success(forall f :: f in fields ==> row[f] == Some(data[f]))
    ensures r.Failure? ==> r.error.MissingField? && r.error.name in fields && r.error.name !in row
    decreases |fields|
  {
    if fields == [] then Success(true)
    else if fields[0] !in row then Failure(MissingField(fields[0]))
    else if row[fields[0]] != Some(data[fields[0]]) then Success(false)
    else MatchFields(fields[1..], data, row)
  }

  /** The loop of `part_of_data_set`: the first row that matches ends the scan with true. */
  function Scan(rows: seq<Row>, probe: Record): (r: Result<bool, CsvError>)
    ensures (forall i, k :: 0 <= i < |rows| && k in probe.keys ==> k in rows[i]) ==>
      r == Success(exists i :: 0 <= i < |rows| && RowHas(rows[i], probe))
    ensures r.Failure? ==> (r.error.MissingField? && r.error.name in probe.keys &&
      exists i :: 0 <= i < |rows| && r.error.name !in rows[i])
    decreases |rows|
  {
    if rows == [] then Success(false)
    else
      match MatchFields(probe.keys, probe.entries, rows[0])
      case Failure(e) => Failure(e)
      case Success(true) => Success(true)
      case Success(false) =>
        var r := Scan(rows[1..], probe);
        assert forall i :: 1 <= i < |rows| ==> rows[1..][i - 1] == rows[i];
        assert r.Failure? ==> exists i :: 1 <= i < |rows| && r.error.name !in rows[i];
        r
  }

  /** `part_of_data_set`: a missing file contains nothing; otherwise the rows are scanned. */
  function Contains(f: FileState, probe: Record): (r: Result<bool, CsvError>)
    ensures r.Failure? ==> (r.error.MissingField? && f.Present? && f.lines != [] &&
      r.error.name in probe.keys && r.error.name !in f.lines[0])
  {
    match f
    case Missing => Success(false)
    case Present(lines) => RowsKeys(lines); Scan(Rows(lines), probe)
  }

  /** Every field of the probe is a column of the file, so the scan cannot raise KeyError. */
  predicate ProbeFieldsAreColumns(f: FileState, probe: Record)
  {
    f.Present? && f.lines != [] ==> forall k :: k in probe.keys ==> k in f.lines[0]
  }

  // ---------------------------------------------------------------------------------------------
  // Properties of the store

  /**
   * The strict check: when the probe's fields are columns, the file contains the probe exactly
   * when one single row that `read_list` returns agrees with the probe on every probe field.
   */
  lemma ContainsIffOneRowMatches(f: FileState, probe: Record)
    requires ProbeFieldsAreColumns(f, probe)
    ensures Contains(f, probe) ==
      Success(f.Present? && exists i :: 0 <= i < |Rows(f.lines)| && RowHas(Rows(f.lines)[i], probe))
  {
    if f.Present? {
      var rows := Rows(f.lines);
      assert Contains(f, probe) == Scan(rows, probe);
      RowsKeys(f.lines);
      forall i, field | 0 <= i < |rows| && field in probe.keys
        ensures field in rows[i]
      {
        assert field in f.lines[0];
      }
      assert Scan(rows, probe) == Success(exists i :: 0 <= i < |rows| && RowHas(rows[i], probe));
    }
  }

  /** With no probe fields, `all` is vacuously true: the file contains it iff it has a data row. */
  lemma ContainsEmptyProbe(f: FileState, probe: Record)
    requires probe.keys == []
    ensures Contains(f, probe) == Success(f.Present? && |Rows(f.lines)| > 0)
  {
    ContainsIffOneRowMatches(f, probe);
    if f.Present? && |Rows(f.lines)| > 0 {
      assert RowHas(Rows(f.lines)[0], probe);
    }
  }

  /** Appending to an empty or missing file writes the header, then the row. */
  lemma AppendToEmptyWritesHeader(f: FileState, data: Record)
    requires f == Missing || f == Present([])
    ensures Appended(f, data) == Present([data.keys, Values(data)])
  {
  }

  /** Appending to a non-empty file writes one row and no header, and keeps the lines before it. */
  lemma AppendToNonEmptyWritesRow(lines: seq<Line>, data: Record)
    requires lines != []
    ensures Appended(Present(lines), data) == Present(lines + [Values(data)])
  {
  }

  /** Of a record whose keys are the header, `DictReader` reads back exactly the record. */
  lemma RowOfRecord(d: Record)
    ensures RowOf(d.keys, Values(d)) == AsRow(d)
  {
    var row := RowOf(d.keys, Values(d));
    forall k | k in row
      ensures k in AsRow(d) && row[k] == AsRow(d)[k]
    {
      var i :| 0 <= i < |d.keys| && d.keys[i] == k;
      assert LastIn(d.keys, i);
    }
  }

  /** Appending adds exactly the new record's row at the end of what `read_list` returns. */
  lemma RowsAfterAppend(lines: seq<Line>, data: Record)
    requires lines == [] || lines[0] == data.keys
    requires data.keys != []
    ensures Appended(Present(lines), data).lines != []
    ensures Appended(Present(lines), data).lines[0] == data.keys
    ensures Rows(Appended(Present(lines), data).lines) == Rows(lines) + [AsRow(data)]
  {
    RowOfRecord(data);
    var g := Appended(Present(lines), data).lines;
    if lines == [] {
      assert g[1..] == [Values(data)];
      assert g[1..][..0] == [];
    } else {
      assert g[1..] == lines[1..] + [Values(data)];
      assert g[1..][..|g[1..]| - 1] == lines[1..];
    }
  }

  /** `Appended` folded over a list of records, first to last. */
  function AppendedAll(f: FileState, records: seq<Record>): FileState
    decreases |records|
  {
    if records == [] then f
    else
      var n := |records| - 1;
      Appended(AppendedAll(f, records[..n]), records[n])
  }

  /** The value lines of the records, in order. */
  function ValueLines(records: seq<Record>): (lines: seq<Line>)
    ensures |lines| == |records|
    decreases |records|
  {
    if records == [] then [] else var n := |records| - 1; ValueLines(records[..n]) + [Values(records[n])]
  }

  /** The records seen as rows, in order. */
  function AsRows(records: seq<Record>): (rows: seq<Row>)
    ensures |rows| == |records|
    decreases |records|
  {
    if records == [] then [] else var n := |records| - 1; AsRows(records[..n]) + [AsRow(records[n])]
  }

  /** Appending records one by one writes the header once (into an empty file) and then one line each. */
  lemma {:induction false} AppendedAllLines(lines: seq<Line>, keys: seq<string>, records: seq<Record>)
    requires lines == [] ==> forall i :: 0 <= i < |records| ==> records[i].keys == keys
    ensures AppendedAll(Present(lines), records) ==
      if lines == [] && records == [] then Present([])
      else Present((if lines == [] then [keys] else lines) + ValueLines(records))
    decreases |records|
  {
    if records != [] {
      var n := |records| - 1;
      AppendedAllLines(lines, keys, records[..n]);
      if lines == [] && n == 0 {
        assert records[0].keys == keys;
      }
    }
  }

  /** A line added after the body is read as one more row, unless it is blank. */
  lemma DecodeSnoc(header: Line, body: seq<Line>, last: Line)
    requires last != []
    ensures Decode(header, body + [last]) == Decode(header, body) + [RowOf(header, last)]
  {
    assert (body + [last])[..|body|] == body;
  }

  /** `RowOf` applied to each line. */
  function RowsOfLines(header: Line, lines: seq<Line>): (rows: seq<Row>)
    ensures |rows| == |lines|
    decreases |lines|
  {
    if lines == [] then [] else var n := |lines| - 1; RowsOfLines(header, lines[..n]) + [RowOf(header, lines[n])]
  }

  /** Lines without blanks added after the body are read as one row each. */
  lemma {:induction false} DecodeAppendLines(header: Line, body: seq<Line>, extra: seq<Line>)
    requires forall i :: 0 <= i < |extra| ==> extra[i] != []
    ensures Decode(header, body + extra) == Decode(header, body) + RowsOfLines(header, extra)
    decreases |extra|
  {
    if extra == [] {
      assert body + [] == body;
      assert Decode(header, body) + [] == Decode(header, body);
    } else {
      var n := |extra| - 1;
      var init, line := extra[..n], extra[n];
      assert forall i :: 0 <= i < |init| ==> init[i] == extra[i];
      DecodeAppendLines(header, body, init);
      assert extra == init + [line];
      SnocAssoc(body, init, line);
      DecodeSnoc(header, body + init, line);
      SnocAssoc(Decode(header, body), RowsOfLines(header, init), RowOf(header, line));
    }
  }

  lemma SnocAssoc<T>(a: seq<T>, b: seq<T>, c: T)
    ensures (a + b) + [c] == a + (b + [c])
  {
  }

  /** `DictReader` reads the value lines of records that share the header's keys back as the records. */
  lemma {:induction false} RowsOfValueLines(keys: seq<string>, records: seq<Record>)
    requires forall i :: 0 <= i < |records| ==> records[i].keys == keys
    ensures RowsOfLines(keys, ValueLines(records)) == AsRows(records)
    decreases |records|
  {
    if records != [] {
      var n := |records| - 1;
      assert forall i :: 0 <= i < n ==> records[..n][i] == records[i];
      RowsOfValueLines(keys, records[..n]);
      assert ValueLines(records)[..n] == ValueLines(records[..n]);
      RowOfRecord(records[n]);
    }
  }

  /** Every value line of records with a non-empty key order holds at least one cell. */
  lemma ValueLinesNotBlank(keys: seq<string>, records: seq<Record>)
    requires keys != []
    requires forall i :: 0 <= i < |records| ==> records[i].keys == keys
    ensures forall i :: 0 <= i < |records| ==> ValueLines(records)[i] != []
  {
    forall i | 0 <= i < |records|
      ensures ValueLines(records)[i] == Values(records[i])
    {
      ValueLinesAt(records, i);
    }
  }

  lemma {:induction false} ValueLinesAt(records: seq<Record>, i: nat)
    requires i < |records|
    ensures ValueLines(records)[i] == Values(records[i])
    decreases |records|
  {
    var n := |records| - 1;
    if i < n {
      ValueLinesAt(records[..n], i);
    }
  }

  /** The head and the tail of a concatenation whose first part is not empty. */
  lemma TailOfConcat<X>(a: seq<X>, b: seq<X>)
    requires a != []
    ensures (a + b)[0] == a[0] && (a + b)[1..] == a[1..] + b
  {
  }

  /** Value lines of records keyed like the header are read back, after the existing rows, as those records. */
  lemma RowsAfterValueLines(header: seq<Line>, keys: seq<string>, records: seq<Record>)
    requires header != [] && header[0] == keys && keys != []
    requires forall i :: 0 <= i < |records| ==> records[i].keys == keys
    ensures Rows(header + ValueLines(records)) == Rows(header) + AsRows(records)
  {
    var lines := ValueLines(records);
    TailOfConcat(header, lines);
    ValueLinesNotBlank(keys, records);
    DecodeAppendLines(keys, header[1..], lines);
    RowsOfValueLines(keys, records);
  }

  /**
   * Round trip: appending records that share one non-empty key order to a file whose header is
   * that key order (or to an empty file), then reading the file back, gives its earlier rows
   * followed by exactly those records, in order.
   */
  lemma ReadAllAfterAppends(lines: seq<Line>, keys: seq<string>, records: seq<Record>)
    requires keys != []
    requires lines == [] || lines[0] == keys
    requires forall i :: 0 <= i < |records| ==> records[i].keys == keys
    ensures ReadAll(AppendedAll(Present(lines), records)) == Success(Rows(lines) + AsRows(records))
  {
    AppendedAllLines(lines, keys, records);
    if lines == [] && records == [] {
      assert Rows([]) + AsRows(records) == [];
    } else {
      var header := if lines == [] then [keys] else lines;
      RowsAfterValueLines(header, keys, records);
      assert Rows(header) == Rows(lines);
    }
  }

  /** The round trip from an empty file, as the record store's tests exercise it. */
  lemma ReadAllRoundTrip(keys: seq<string>, records: seq<Record>)
    requires keys != []
    requires forall i :: 0 <= i < |records| ==> records[i].keys == keys
    ensures ReadAll(AppendedAll(Present([]), records)) == Success(AsRows(records))
  {
    ReadAllAfterAppends([], keys, records);
    var rows := AsRows(records);
    assert Rows([]) + rows == rows;
  }

  /** After appending a record, a probe that agrees with it is found. */
  lemma ContainsAfterAppend(lines: seq<Line>, data: Record, probe: Record)
    requires lines == [] || lines[0] == data.keys
    requires data.keys != []
    requires forall k :: k in probe.keys ==> k in data.entries && probe.entries[k] == data.entries[k]
    ensures Contains(Appended(Present(lines), data), probe) == Success(true)
  {
    RowsAfterAppend(lines, data);
    ContainsLastRow(Appended(Present(lines), data), Rows(lines), data, probe);
  }

  /** A file whose last row is the record is found by a probe that agrees with the record. */
  lemma ContainsLastRow(f: FileState, before: seq<Row>, data: Record, probe: Record)
    requires f.Present? && f.lines != [] && f.lines[0] == data.keys
    requires Rows(f.lines) == before + [AsRow(data)]
    requires forall k :: k in probe.keys ==> k in data.entries && probe.entries[k] == data.entries[k]
    ensures Contains(f, probe) == Success(true)
  {
    assert forall k :: k in probe.keys ==> k in data.keys;
    assert ProbeFieldsAreColumns(f, probe);
    ContainsIffOneRowMatches(f, probe);
    assert Rows(f.lines)[|before|] == AsRow(data);
    assert RowHas(AsRow(data), probe);
  }

  /** No two rows agree on field `key`. */
  predicate UniqueOn(rows: seq<Row>, key: string)
  {
    forall i, j :: 0 <= i < j < |rows| && key in rows[i] && key in rows[j] ==> rows[i][key] != rows[j][key]
  }

  /** The lines of a file; a missing one has none. */
  function LinesOf(f: FileState): seq<Line>
  {
    if f.Present? then f.lines else []
  }

  /** The rows of a file; a missing one has none. */
  function RowsIn(f: FileState): seq<Row>
  {
    if f.Present? then Rows(f.lines) else []
  }

  /** Some row has the app id `appId`, the key both of the pipeline's info files are probed on. */
  predicate HasApp(rows: seq<Row>, appId: string)
  {
    exists i :: 0 <= i < |rows| && "app_id" in rows[i] && rows[i]["app_id"] == Some(appId)
  }

  /** The record with the single field `key` = `value`, as the callers build their probes. */
  function Probe(key: string, value: string): (p: Record)
    ensures p.keys == [key] && p.entries[key] == value
  {
    Dict([key], map[key := value])
  }

  /** When `app_id` is a column, the probe on it never raises and finds exactly the rows holding the id. */
  lemma ProbeOnAppId(f: FileState, appId: string)
    requires f.Present? && f.lines != [] ==> "app_id" in f.lines[0]
    ensures Contains(f, Probe("app_id", appId)) == Success(HasApp(RowsIn(f), appId))
  {
    var p := Probe("app_id", appId);
    ContainsIffOneRowMatches(f, p);
    if f.Present? {
      var rows := Rows(f.lines);
      assert (exists i :: 0 <= i < |rows| && RowHas(rows[i], p)) <==> HasApp(rows, appId) by {
        forall i | 0 <= i < |rows|
          ensures RowHas(rows[i], p) <==> ("app_id" in rows[i] && rows[i]["app_id"] == Some(appId))
        {
        }
      }
    }
  }

  /**
   * The deduplication the callers rely on: appending, only when the probe on `key` is not found,
   * keeps the rows unique on `key`.
   */
  lemma AppendAbsentKeepsUnique(lines: seq<Line>, data: Record, key: string)
    requires lines == [] || lines[0] == data.keys
    requires key in data.keys
    requires UniqueOn(Rows(lines), key)
    requires Contains(Present(lines), Probe(key, data.entries[key])) == Success(false)
    ensures UniqueOn(Rows(Appended(Present(lines), data).lines), key)
  {
    var p := Probe(key, data.entries[key]);
    ContainsIffOneRowMatches(Present(lines), p);
    var before := Rows(lines);
    forall i | 0 <= i < |before| && key in before[i]
      ensures before[i][key] != Some(data.entries[key])
    {
      assert !RowHas(before[i], p);
    }
    UniqueOnSnoc(before, AsRow(data), key);
    RowsAfterAppend(lines, data);
  }

  /** A row whose `key` no earlier row has keeps the rows unique on `key`. */
  lemma UniqueOnSnoc(before: seq<Row>, last: Row, key: string)
    requires UniqueOn(before, key)
    requires key in last
    requires forall i :: 0 <= i < |before| && key in before[i] ==> before[i][key] != last[key]
    ensures UniqueOn(before + [last], key)
  {
    var rows := before + [last];
    forall i, j | 0 <= i < j < |rows| && key in rows[i] && key in rows[j]
      ensures rows[i][key] != rows[j][key]
    {
      assert rows[i] == before[i];
      if j < |before| {
        assert rows[j] == before[j];
      }
    }
  }

  // ---------------------------------------------------------------------------------------------
  // The text of a store file

  /** A line as the `csv` writer renders it when no cell needs quoting. */
  function Join(cells: Line): string
    decreases |cells|
  {
    if cells == [] then ""
    else if |cells| == 1 then cells[0]
    else cells[0] + "," + Join(cells[1..])
  }

  /** The `csv` reader on a line without quotes: the cells between the commas. */
  function Split(s: string): (cells: Line)
    ensures |cells| > 0
    decreases |s|
  {
    if s == [] then [""]
    else
      var rest := Split(s[1..]);
      if s[0] == ',' then [""] + rest else [[s[0]] + rest[0]] + rest[1..]
  }

  lemma {:induction false} SplitPrefix(c: string, t: string)
    requires ',' !in c
    ensures Split(c + t) == [c + Split(t)[0]] + Split(t)[1..]
    decreases |c|
  {
    if c != [] {
      assert c[0] in c && (c + t)[0] == c[0];
      assert (c + t)[1..] == c[1..] + t;
      assert forall x :: x in c[1..] ==> x in c;
      SplitPrefix(c[1..], t);
      var st := Split(t);
      assert Split(c[1..] + t)[0] == c[1..] + st[0];
      assert [c[0]] + (c[1..] + st[0]) == c + st[0];
    } else {
      var st := Split(t);
      assert c + t == t;
      assert "" + st[0] == st[0];
      assert [st[0]] + st[1..] == st;
    }
  }

  /** Reading back a line that was written from cells without commas gives the cells. */
  lemma {:induction false} SplitJoin(cells: Line)
    requires cells != []
    requires forall i :: 0 <= i < |cells| ==> ',' !in cells[i]
    ensures Split(Join(cells)) == cells
    decreases |cells|
  {
    if |cells| == 1 {
      SplitPrefix(cells[0], "");
      assert cells[0] + "" == cells[0];
      assert Split("") == [""];
    } else {
      var rest := Join(cells[1..]);
      SplitJoin(cells[1..]);
      assert cells[0] + "," + rest == cells[0] + ("," + rest);
      SplitPrefix(cells[0], "," + rest);
      assert ("," + rest)[1..] == rest;
      assert Split("," + rest) == [""] + Split(rest);
      assert cells[0] + "" == cells[0];
      assert [cells[0]] + cells[1..] == cells;
    }
  }

  /** The `csv` writer's default line terminator. */
  const LineTerminator: string := "\r\n"

  /** The file's text: each line rendered and terminated. */
  function Text(lines: seq<Line>): string
    decreases |lines|
  {
    if lines == [] then "" else Join(lines[0]) + LineTerminator + Text(lines[1..])
  }

  function FileText(f: FileState): string
  {
    if f.Present? then Text(f.lines) else ""
  }

  lemma {:induction false} TextConcat(a: seq<Line>, b: seq<Line>)
    ensures Text(a + b) == Text(a) + Text(b)
    decreases |a|
  {
    if a != [] {
      assert (a + b)[0] == a[0];
      assert (a + b)[1..] == a[1..] + b;
      TextConcat(a[1..], b);
    } else {
      assert a + b == b;
    }
  }

  /** The file is opened with mode "a+": what was there is a prefix of the new text. */
  lemma AppendNeverRewrites(f: FileState, data: Record)
    ensures FileText(f) < FileText(Appended(f, data))
  {
    var g := Appended(f, data);
    if f.Present? && f.lines != [] {
      TextConcat(f.lines, [Values(data)]);
    }
  }

  /** The example of the store's tests: `{a: c, b: d}` into an empty file gives `a,b` then `c,d`. */
  lemma AppendExample()
    ensures var d: Record := Dict(["a", "b"], map["a" := "c", "b" := "d"]);
      FileText(Appended(Present([]), d)) == "a,b\r\nc,d\r\n"
  {
    var d: Record := Dict(["a", "b"], map["a" := "c", "b" := "d"]);
    assert Values(d) == ["c", "d"];
  }

  // ---------------------------------------------------------------------------------------------
  // The log file

  /** The line `log_failure` writes: the message, a comma and a space, the exception, a newline. */
  function LogLine(message: string, exception: BetelError): string
  {
    message + ", " + Describe(exception) + "\n"
  }

  function CountChar(s: string, c: char): (n: nat)
    ensures n <= |s|
    decreases |s|
  {
    if s == [] then 0 else (if s[0] == c then 1 else 0) + CountChar(s[1..], c)
  }

  lemma {:induction false} CountCharConcat(a: string, b: string, c: char)
    ensures CountChar(a + b, c) == CountChar(a, c) + CountChar(b, c)
    decreases |a|
  {
    if a != [] {
      assert (a + b)[0] == a[0];
      assert (a + b)[1..] == a[1..] + b;
      CountCharConcat(a[1..], b, c);
    } else {
      assert a + b == b;
    }
  }

  /**
   * `log_failure` adds exactly one line: when neither the message nor the exception's text holds
   * a line break, the log gains one newline, at its end.
   */
  lemma LogLineIsOneLine(log: string, message: string, exception: BetelError)
    requires '\n' !in message && '\n' !in Describe(exception)
    ensures CountChar(log + LogLine(message, exception), '\n') == CountChar(log, '\n') + 1
    ensures (log + LogLine(message, exception))[|log + LogLine(message, exception)| - 1] == '\n'
  {
    var d := Describe(exception);
    CountCharConcat(log, LogLine(message, exception), '\n');
    CountCharConcat(message, ", ", '\n');
    CountCharConcat(message + ", ", d, '\n');
    CountCharConcat(message + ", " + d, "\n", '\n');
    assert CountChar(", ", '\n') == 0;
    assert CountChar("\n", '\n') == 1;
    CountCharNone(message, '\n');
    CountCharNone(d, '\n');
  }

  lemma {:induction false} CountCharNone(s: string, c: char)
    requires c !in s
    ensures CountChar(s, c) == 0
    decreases |s|
  {
    if s != [] {
      assert s[1..] <= s[1..];
      assert forall i :: 0 <= i < |s[1..]| ==> s[1..][i] == s[i + 1];
      CountCharNone(s[1..], c);
    }
  }

  // ---------------------------------------------------------------------------------------------
  // The files, updated in place

  /** One CSV store file on disk. */
  class CsvFile {
    var state: FileState

    constructor (state: FileState)
      ensures this.state == state
    {
      this.state := state;
    }

    /** `add_to_data`: the file ends up holding what it held plus the record's line(s). */
    method AddToData(data: Record)
      modifies this
      ensures state == Appended(old(state), data)
      ensures FileText(old(state)) < FileText(state)
    {
      AppendNeverRewrites(state, data);
      var lines := if state.Present? then state.lines else [];
      if lines == [] {
        lines := lines + [data.keys];
      }
      lines := lines + [Values(data)];
      state := Present(lines);
    }

    /**
     * `part_of_data_set`: false for a missing file; otherwise the rows are scanned and the first
     * one agreeing with the probe on every probe field returns true.
     */
    method PartOfDataSet(data: Record) returns (r: Result<bool, CsvError>)
      ensures r == Contains(state, data)
    {
      if state.Missing? {
        return Success(false);
      }
      var rows := Rows(state.lines);
      var i := 0;
      while i < |rows|
        invariant 0 <= i <= |rows|
        invariant Scan(rows, data) == Scan(rows[i..], data)
      {
        assert rows[i..][0] == rows[i] && rows[i..][1..] == rows[i + 1..];
        var m := MatchFields(data.keys, data.entries, rows[i]);
        if m.Failure? {
          return Failure(m.error);
        }
        if m.value {
          return Success(true);
        }
        i := i + 1;
      }
      assert rows[i..] == [];
      return Success(false);
    }

    /** `read_list`: the rows in file order; a missing file raises. */
    method ReadList() returns (r: Result<seq<Row>, CsvError>)
      ensures r == ReadAll(state)
      ensures r.Success? <==> state.Present?
    {
      if state.Missing? {
        return Failure(FileNotFound);
      }
      var lines := state.lines;
      if lines == [] {
        return Success([]);
      }
      var header, body := lines[0], lines[1..];
      var rows: seq<Row> := [];
      var i := 0;
      while i < |body|
        invariant 0 <= i <= |body|
        invariant rows == Decode(header, body[..i])
      {
        assert body[..i + 1][..i] == body[..i];
        if body[i] != [] {
          rows := rows + [RowOf(header, body[i])];
        }
        i := i + 1;
      }
      assert body[..i] == body;
      return Success(rows);
    }
  }

  /** The log file; a missing one reads as empty, since it is opened with mode "a+". */
  class LogFile {
    var text: string

    constructor (text: string)
      ensures this.text == text
    {
      this.text := text;
    }

    /** `log_failure`: exactly one line is appended and the earlier text is kept. */
    method LogFailure(message: string, exception: BetelError)
      modifies this
      ensures text == old(text) + LogLine(message, exception)
    {
      text := text + LogLine(message, exception);
    }
  }
}
