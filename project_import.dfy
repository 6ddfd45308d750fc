/**
 * The `useProjectImport` hook: turns an uploaded CSV or XLSX file into one record per
 * data row, keyed by the normalised header names.
 */
module ProjectImport {
  import opened Wrappers
  import opened Files
  import Seqs
  import Text
  import Records

  const CsvReadError := "Erro ao ler arquivo CSV"
  const ReadError := "Erro ao ler arquivo"
  const EmptyFile := "Arquivo vazio"
  const Unsupported := "Formato de arquivo não suportado"
  const NoData := "Nenhum dado encontrado no arquivo. Verifique se o arquivo contém dados válidos."

  /** The record the `headers.forEach` builds: each header in turn assigned its value. */
  function BuildRecord(headers: seq<string>, values: seq<string>): Records.Record
  {
    if headers == [] then []
    else
      var n := |headers| - 1;
      Records.Put(BuildRecord(headers[..n], values), headers[n], TextAt(values, n))
  }

  /** A record's keys are the headers in order of first appearance, duplicates merged. */
  lemma {:induction false} BuildRecordKeys(headers: seq<string>, values: seq<string>)
    ensures Records.Keys(BuildRecord(headers, values)) == Seqs.Dedupe(headers)
  {
    if headers != [] {
      var n := |headers| - 1;
      BuildRecordKeys(headers[..n], values);
      Records.KeysPut(BuildRecord(headers[..n], values), headers[n], TextAt(values, n));
    }
  }

  /** A header holds the value of its last column: later duplicates overwrite earlier ones. */
  lemma {:induction false} BuildRecordGet(headers: seq<string>, values: seq<string>, i: nat)
    requires i < |headers| && headers[i] !in headers[i + 1..]
    ensures Records.Get(BuildRecord(headers, values), headers[i]) == Some(TextAt(values, i))
  {
    var n := |headers| - 1;
    var prev := BuildRecord(headers[..n], values);
    if i == n {
      Records.GetPutSame(prev, headers[n], TextAt(values, n));
    } else {
      assert headers[n] in headers[i + 1..];
      assert headers[..n][i + 1..] == headers[i + 1..n];
      BuildRecordGet(headers[..n], values, i);
      Records.GetPutOther(prev, headers[n], TextAt(values, n), headers[i]);
    }
  }

  function RecordBuilder(headers: seq<string>): seq<string> -> Records.Record
  {
    values => BuildRecord(headers, values)
  }

  /** Every record carries exactly the (merged) headers, each with its own column's value. */
  lemma RecordsShape(headers: seq<string>, rows: seq<seq<string>>, k: nat, i: nat)
    requires k < |rows| && i < |headers| && headers[i] !in headers[i + 1..]
    ensures var r := Seqs.Map(RecordBuilder(headers), rows);
      && Records.Keys(r[k]) == Seqs.Dedupe(headers)
      && Records.Get(r[k], headers[i]) == Some(TextAt(rows[k], i))
  {
    BuildRecordKeys(headers, rows[k]);
    BuildRecordGet(headers, rows[k], i);
  }

  /** `h.trim().toLowerCase().replace(/\s+/g, '_')`. */
  function CsvHeader(h: string): string
  {
    Text.Slug(Text.Trim(h))
  }

  function TrimmedValues(line: string): seq<string>
  {
    Seqs.Map(Text.Trim, Text.Split(line, ','))
  }

  predicate IsDataLine(line: string)
  {
    Text.Trim(line) != ""
  }

  function DataLineFilter(): string -> bool
  {
    line => IsDataLine(line)
  }

  /** The header names of the first line of `content`. */
  function CsvHeaders(content: string): seq<string>
  {
    Seqs.Map(CsvHeader, Text.Split(Text.Split(content, '\n')[0], ','))
  }

  /** The non-blank lines after the first. */
  function CsvDataLines(content: string): seq<string>
  {
    Seqs.Filter(DataLineFilter(), Text.Split(content, '\n')[1..])
  }

  /** `parseCSV`: one record per non-blank line after the header line. */
  function ParseCsv(content: string): (r: seq<Records.Record>)
    ensures |r| == |CsvDataLines(content)|
  {
    Seqs.Map(RecordBuilder(CsvHeaders(content)), Seqs.Map(TrimmedValues, CsvDataLines(content)))
  }

  /**
   * The `k`-th record comes from the `k`-th non-blank data line: its keys are the
   * normalised headers and each header holds that line's trimmed value in its column.
   */
  lemma ParseCsvRecord(content: string, k: nat, i: nat)
    requires k < |CsvDataLines(content)|
    requires i < |CsvHeaders(content)| && CsvHeaders(content)[i] !in CsvHeaders(content)[i + 1..]
    ensures var r := ParseCsv(content)[k];
      && Records.Keys(r) == Seqs.Dedupe(CsvHeaders(content))
      && Records.Get(r, CsvHeaders(content)[i]) == Some(TextAt(TrimmedValues(CsvDataLines(content)[k]), i))
  {
    RecordsShape(CsvHeaders(content), Seqs.Map(TrimmedValues, CsvDataLines(content)), k, i);
  }

  /** `h?.toString().toLowerCase().replace(/\s+/g, '_')` (not trimmed, unlike CSV). */
  function SheetHeader(h: string): string
  {
    Text.Slug(h)
  }

  /**
   * The header positions `headers.forEach` visits: `jsonData[0].map` keeps the holes of
   * the sparse header row, and `forEach` skips them, so only present cells name a key.
   */
  function PresentColumns(header: seq<Cell>): (cols: seq<nat>)
    ensures forall j :: 0 <= j < |cols| ==> cols[j] < |header| && header[cols[j]].Some?
    ensures forall i :: 0 <= i < |header| && header[i].Some? ==> i in cols
    ensures forall j, j' :: 0 <= j < j' < |cols| ==> cols[j] < cols[j']
  {
    if header == [] then []
    else
      var n := |header| - 1;
      PresentColumns(header[..n]) + (if header[n].Some? then [n] else [])
  }

  /** The normalised names of the present header cells, left to right. */
  function HeaderNames(header: seq<Cell>): (names: seq<string>)
    ensures |names| == |PresentColumns(header)|
  {
    var cols := PresentColumns(header);
    seq(|cols|, j requires 0 <= j < |cols| => SheetHeader(header[cols[j]].value))
  }

  /** `row[index]?.toString() || ''` for each visited header position. */
  function ColumnTexts(header: seq<Cell>, row: seq<Cell>): (texts: seq<string>)
    ensures |texts| == |PresentColumns(header)|
  {
    var cols := PresentColumns(header);
    seq(|cols|, j requires 0 <= j < |cols| => TextAt(RowTexts(row), cols[j]))
  }

  /** The record one data row becomes under the header row. */
  function SheetRecordOf(header: seq<Cell>, row: seq<Cell>): Records.Record
  {
    BuildRecord(HeaderNames(header), ColumnTexts(header, row))
  }

  function SheetRecordBuilder(header: seq<Cell>): seq<Cell> -> Records.Record
  {
    row => SheetRecordOf(header, row)
  }

  /** `row.some(cell => cell !== null && cell !== undefined && cell !== '')`. */
  predicate HasContent(row: seq<Cell>)
  {
    exists c :: c in row && c.Some? && c.value != ""
  }

  function ContentFilter(): seq<Cell> -> bool
  {
    row => HasContent(row)
  }

  function RowTexts(row: seq<Cell>): seq<string>
  {
    Seqs.Map(CellText, row)
  }

  /** One record per row with content, built under the header row. */
  function DataRecords(header: seq<Cell>, rows: Sheet): (r: seq<Records.Record>)
    ensures |r| == |Seqs.Filter(ContentFilter(), rows)|
  {
    Seqs.Map(SheetRecordBuilder(header), Seqs.Filter(ContentFilter(), rows))
  }

  lemma DataRecordsSnoc(header: seq<Cell>, rows: Sheet, row: seq<Cell>)
    ensures DataRecords(header, rows + [row])
         == DataRecords(header, rows) + (if HasContent(row) then [SheetRecordOf(header, row)] else [])
  {
    ContentRowsSnoc(rows, row);
    if HasContent(row) {
      Seqs.MapAppend(SheetRecordBuilder(header), Seqs.Filter(ContentFilter(), rows), [row]);
    }
  }

  lemma ContentRowsSnoc(rows: Sheet, row: seq<Cell>)
    ensures Seqs.Filter(ContentFilter(), rows + [row])
         == Seqs.Filter(ContentFilter(), rows) + (if HasContent(row) then [row] else [])
  {
    Seqs.FilterAppend(ContentFilter(), rows, [row]);
    Seqs.FilterSingle(ContentFilter(), row);
  }

  /** The records `parseXLSX` resolves with for a sheet with a header row. */
  function SheetRecords(sheet: Sheet): seq<Records.Record>
    requires sheet != []
  {
    DataRecords(sheet[0], sheet[1..])
  }

  /**
   * A row's record has one key per distinct name among the present header cells, and
   * no other: a blank header cell names nothing.
   */
  lemma SheetRecordKeys(header: seq<Cell>, row: seq<Cell>)
    ensures var keys := Records.Keys(SheetRecordOf(header, row));
      && keys == Seqs.Dedupe(HeaderNames(header))
      && forall name :: name in keys <==>
           exists i :: 0 <= i < |header| && header[i].Some? && SheetHeader(header[i].value) == name
  {
    var names := HeaderNames(header);
    var cols := PresentColumns(header);
    BuildRecordKeys(names, ColumnTexts(header, row));
    forall name | name in names
      ensures exists i :: 0 <= i < |header| && header[i].Some? && SheetHeader(header[i].value) == name
    {
      var j := Seqs.IndexOf(names, name);
      assert header[cols[j]].Some? && SheetHeader(header[cols[j]].value) == name;
    }
    forall i | 0 <= i < |header| && header[i].Some?
      ensures SheetHeader(header[i].value) in names
    {
      assert names[Seqs.IndexOf(cols, i)] == SheetHeader(header[i].value);
    }
  }

  /**
   * A present header cell with no later present cell of the same name holds the text of
   * the row's cell in its column ('' for a blank or missing cell).
   */
  lemma SheetRecordGet(header: seq<Cell>, row: seq<Cell>, i: nat)
    requires i < |header| && header[i].Some?
    requires forall i' :: i < i' < |header| && header[i'].Some? ==>
      SheetHeader(header[i'].value) != SheetHeader(header[i].value)
    ensures Records.Get(SheetRecordOf(header, row), SheetHeader(header[i].value)) == Some(TextAt(RowTexts(row), i))
  {
    var names := HeaderNames(header);
    var cols := PresentColumns(header);
    var j := Seqs.IndexOf(cols, i);
    assert names[j] == SheetHeader(header[i].value);
    forall m | j < m < |cols|
      ensures names[m] != names[j]
    {
      assert cols[j] < cols[m];
    }
    assert names[j] !in names[j + 1..];
    BuildRecordGet(names, ColumnTexts(header, row), j);
  }

  /**
   * The `k`-th record comes from the `k`-th row with content: its keys are the names of
   * the present header cells, merged, and each such cell's name holds that row's cell text
   * in its column.
   */
  lemma SheetRecord(sheet: Sheet, k: nat, i: nat)
    requires sheet != [] && k < |Seqs.Filter(ContentFilter(), sheet[1..])|
    requires i < |sheet[0]| && sheet[0][i].Some?
    requires forall i' :: i < i' < |sheet[0]| && sheet[0][i'].Some? ==>
      SheetHeader(sheet[0][i'].value) != SheetHeader(sheet[0][i].value)
    ensures var row := Seqs.Filter(ContentFilter(), sheet[1..])[k];
      var r := SheetRecords(sheet)[k];
      && HasContent(row)
      && Records.Keys(r) == Seqs.Dedupe(HeaderNames(sheet[0]))
      && Records.Get(r, SheetHeader(sheet[0][i].value)) == Some(TextAt(RowTexts(row), i))
  {
    var kept := Seqs.Filter(ContentFilter(), sheet[1..]);
    assert kept[k] in kept;
    SheetRecordKeys(sheet[0], kept[k]);
    SheetRecordGet(sheet[0], kept[k], i);
  }

  /** A header row `['a', <blank>]` gives records with the single key 'a'. */
  lemma BlankHeaderNamesNothing()
    ensures Records.Keys(SheetRecords([[Some("a"), None], [Some("1"), Some("2")]])[0]) == ["a"]
  {
    var sheet: Sheet := [[Some("a"), None], [Some("1"), Some("2")]];
    var header := sheet[0];
    assert PresentColumns(header[..1]) == [0];
    assert PresentColumns(header) == [0];
    assert Text.Lower("a") == "a";
    assert Text.Slug("a") == "a" by { Text.ReplaceWhitespaceRunsIdentity("a"); }
    assert HeaderNames(header) == ["a"];
    assert HasContent(sheet[1]) by { assert Some("1") in sheet[1]; }
    Seqs.FilterSingle(ContentFilter(), sheet[1]);
    assert sheet[1..] == [sheet[1]];
    SheetRecordKeys(header, sheet[1]);
  }

  /**
   * `parseXLSX` on a decoded sheet: an empty sheet is refused, otherwise one record per
   * data row with some non-empty cell.
   */
  method ParseSheet(sheet: Sheet) returns (r: Result<seq<Records.Record>, string>)
    ensures sheet == [] ==> r == Failure(EmptyFile)
    ensures sheet != [] ==> r == Success(SheetRecords(sheet))
  {
    if |sheet| == 0 {
      return Failure(EmptyFile);
    }
    var header := sheet[0];
    var dataRows := sheet[1..];
    var projects: seq<Records.Record> := [];
    var i := 0;
    while i < |dataRows|
      invariant 0 <= i <= |dataRows|
      invariant projects == DataRecords(header, dataRows[..i])
    {
      var row := dataRows[i];
      Seqs.TakeSnoc(dataRows, i);
      DataRecordsSnoc(header, dataRows[..i], row);
      if HasContent(row) {
        var project := SheetRecordOf(header, row);
        projects := projects + [project];
      }
      i := i + 1;
    }
    Seqs.TakeAll(dataRows, i);
    return Success(projects);
  }

  /** A parse result that is refused when it holds no records. */
  function NonEmpty(records: seq<Records.Record>): (r: Result<seq<Records.Record>, string>)
    ensures r.Success? <==> records != []
    ensures r.Success? ==> r.value == records
    ensures r.Failure? ==> r.error == NoData
  {
    if records == [] then Failure(NoData) else Success(records)
  }

  /** The CSV branch: a read error is refused, and so is a parse without records. */
  function CsvImported(text: Result<string, string>): (r: Result<seq<Records.Record>, string>)
    ensures text.Failure? ==> r == Failure(CsvReadError)
    ensures r.Success? ==> text.Success? && r.value == ParseCsv(text.value) && r.value != []
    ensures text.Success? && ParseCsv(text.value) == [] ==> r == Failure(NoData)
  {
    if text.Failure? then Failure(CsvReadError) else NonEmpty(ParseCsv(text.value))
  }

  /**
   * The XLSX branch: a read error, the decoder's own error and an empty sheet are
   * refused, and so is a sheet without records.
   */
  function SheetImported(sheet: SheetRead): (r: Result<seq<Records.Record>, string>)
    ensures sheet.ReadFailed? ==> r == Failure(ReadError)
    ensures sheet.DecodeFailed? ==> r == Failure(sheet.message)
    ensures sheet == Decoded([]) ==> r == Failure(EmptyFile)
    ensures r.Success? ==> sheet.Decoded? && sheet.rows != [] && r.value == SheetRecords(sheet.rows) && r.value != []
    ensures sheet.Decoded? && sheet.rows != [] && SheetRecords(sheet.rows) == [] ==> r == Failure(NoData)
  {
    match sheet
    case ReadFailed => Failure(ReadError)
    case DecodeFailed(m) => Failure(m)
    case Decoded(rows) => if rows == [] then Failure(EmptyFile) else NonEmpty(SheetRecords(rows))
  }

  /**
   * What `importProjects` resolves with or rejects with: the parser is chosen by file
   * extension ('.csv' first), other files and results without records are refused.
   */
  function Imported(file: UploadedFile): (r: Result<seq<Records.Record>, string>)
    ensures r.Success? ==> r.value != []
    ensures Text.EndsWith(file.name, ".csv") ==> r == CsvImported(file.text)
    ensures !Text.EndsWith(file.name, ".csv") && Text.EndsWith(file.name, ".xlsx") ==> r == SheetImported(file.sheet)
    ensures !Text.EndsWith(file.name, ".csv") && !Text.EndsWith(file.name, ".xlsx") ==> r == Failure(Unsupported)
  {
    if Text.EndsWith(file.name, ".csv") then CsvImported(file.text)
    else if Text.EndsWith(file.name, ".xlsx") then SheetImported(file.sheet)
    else Failure(Unsupported)
  }

  lemma SameKeys(headers: seq<string>, rows: seq<seq<string>>, k: nat)
    requires k < |rows|
    ensures var r := Seqs.Map(RecordBuilder(headers), rows);
      Seqs.Distinct(Records.Keys(r[k])) && Records.Keys(r[k]) == Records.Keys(r[0])
  {
    BuildRecordKeys(headers, rows[k]);
    BuildRecordKeys(headers, rows[0]);
  }

  /** Every imported record has the same keys, those of the header row with duplicates merged. */
  lemma ImportedKeys(file: UploadedFile, k: nat)
    requires Imported(file).Success? && k < |Imported(file).value|
    ensures Seqs.Distinct(Records.Keys(Imported(file).value[k]))
    ensures Records.Keys(Imported(file).value[k]) == Records.Keys(Imported(file).value[0])
  {
    if Text.EndsWith(file.name, ".csv") {
      CsvKeys(file.text.value, k);
    } else {
      SheetKeys(file.sheet.rows, k);
    }
  }

  lemma CsvKeys(content: string, k: nat)
    requires k < |ParseCsv(content)|
    ensures Seqs.Distinct(Records.Keys(ParseCsv(content)[k]))
    ensures Records.Keys(ParseCsv(content)[k]) == Records.Keys(ParseCsv(content)[0])
  {
    SameKeys(CsvHeaders(content), Seqs.Map(TrimmedValues, CsvDataLines(content)), k);
  }

  lemma SheetKeys(sheet: Sheet, k: nat)
    requires sheet != [] && k < |SheetRecords(sheet)|
    ensures Seqs.Distinct(Records.Keys(SheetRecords(sheet)[k]))
    ensures Records.Keys(SheetRecords(sheet)[k]) == Records.Keys(SheetRecords(sheet)[0])
  {
    var kept := Seqs.Filter(ContentFilter(), sheet[1..]);
    SheetRecordKeys(sheet[0], kept[k]);
    SheetRecordKeys(sheet[0], kept[0]);
  }

  class ProjectImporter {
    var loading: bool
    var error: Option<string>

    constructor ()
      ensures !loading && error == None
    {
      loading := false;
      error := None;
    }

    /** `importProjects`: records the failure message in `error` and always ends the loading state. */
    method ImportProjects(file: UploadedFile) returns (r: Result<seq<Records.Record>, string>)
      modifies this
      ensures r == Imported(file)
      ensures !loading
      ensures error == if r.Failure? then Some(r.error) else None
    {
      loading := true;
      error := None;
      if Text.EndsWith(file.name, ".csv") {
        if file.text.Failure? {
          r := Failure(CsvReadError);
        } else {
          r := NonEmpty(ParseCsv(file.text.value));
        }
      } else if Text.EndsWith(file.name, ".xlsx") {
        match file.sheet
        case ReadFailed =>
          r := Failure(ReadError);
        case DecodeFailed(m) =>
          r := Failure(m);
        case Decoded(rows) =>
          var parsed := ParseSheet(rows);
          r := if parsed.Failure? then parsed else NonEmpty(parsed.value);
      } else {
        r := Failure(Unsupported);
      }
      if r.Failure? {
        error := Some(r.error);
      }
      loading := false;
    }
  }
}
