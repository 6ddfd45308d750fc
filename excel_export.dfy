/**
 * The `useExcelExport` hook: writes a project's items to a one-sheet workbook, one
 * column per project column in the order the database returns them.
 */
module ExcelExport {
  import opened Wrappers
  import Seqs
  import Text

  const SheetName := "Dados do Projeto"
  const MinWidth := 15

  /** A stored JSON value; a missing key (`undefined`) is `None` where it can occur. */
  datatype Json = JNull | JString(s: string) | JNumber(n: real)

  /** A cell of the exported sheet: text, or a number the spreadsheet formats itself. */
  datatype Out = OText(text: string) | ONumber(number: real)

  datatype ExportColumn = ExportColumn(columnKey: string, columnLabel: string, columnType: string)

  /** A `project_items` row: its own columns and, when not `null`, its `dynamic_data` object. */
  datatype Item = Item(fields: map<string, Json>, dynamicData: Option<map<string, Json>>)

  /** `value === null || value === undefined || value === ''`. */
  predicate IsMissing(v: Option<Json>)
  {
    v.None? || v.value == JNull || v.value == JString("")
  }

  /** `Number(value) || 0`; `toNumber` is JavaScript's string-to-number conversion, `None` for `NaN`. */
  function NumberOrZero(v: Json, toNumber: string -> Option<real>): (x: real)
    ensures v.JNumber? ==> x == v.n
    ensures v.JString? && toNumber(v.s).Some? ==> x == toNumber(v.s).value
    ensures v.JNull? || (v.JString? && toNumber(v.s).None?) ==> x == 0 as real
  {
    match v
    case JNull => 0 as real
    case JString(s) => toNumber(s).GetOr(0 as real)
    case JNumber(n) => n
  }

  /** `String(value)`; `show` is JavaScript's number-to-string conversion. */
  function JsString(v: Json, show: real -> string): string
  {
    match v
    case JNull => "null"
    case JString(s) => s
    case JNumber(n) => show(n)
  }

  /**
   * `formatValue`: missing values export as empty text; currency and number columns as
   * numbers, percentages as text ending in '%', anything else as its text.
   */
  function FormatValue(v: Option<Json>, columnType: string, toNumber: string -> Option<real>,
                       show: real -> string): (r: Out)
    ensures IsMissing(v) ==> r == OText("")
    ensures !IsMissing(v) && (columnType == "currency" || columnType == "number") ==>
      r == ONumber(NumberOrZero(v.value, toNumber))
    ensures !IsMissing(v) && columnType == "percentage" ==>
      r == OText(show(NumberOrZero(v.value, toNumber)) + "%") && Text.EndsWith(r.text, "%")
    ensures !IsMissing(v) && columnType !in {"currency", "number", "percentage"} && v.value.JString? ==>
      r == OText(v.value.s)
    ensures !IsMissing(v) && columnType !in {"currency", "number", "percentage"} && v.value.JNumber? ==>
      r == OText(show(v.value.n))
  {
    if IsMissing(v) then OText("")
    else if columnType == "currency" || columnType == "number" then ONumber(NumberOrZero(v.value, toNumber))
    else if columnType == "percentage" then OText(show(NumberOrZero(v.value, toNumber)) + "%")
    else OText(JsString(v.value, show))
  }

  /** When `show` never yields empty text, an exported cell is blank exactly when the value is missing. */
  lemma BlankExactlyWhenMissing(v: Option<Json>, columnType: string, toNumber: string -> Option<real>,
                                show: real -> string)
    requires forall n :: show(n) != ""
    ensures FormatValue(v, columnType, toNumber, show) == OText("") <==> IsMissing(v)
  {
    if !IsMissing(v) && columnType !in {"currency", "number", "percentage"} && v.value.JNumber? {
      assert show(v.value.n) != "";
    }
  }

  /** `item[key]`, falling back to `dynamic_data[key]` only when the item has no such column. */
  function CellValue(item: Item, key: string): (v: Option<Json>)
    ensures key in item.fields ==> v == Some(item.fields[key])
    ensures key !in item.fields && item.dynamicData.Some? && key in item.dynamicData.value ==>
      v == Some(item.dynamicData.value[key])
    ensures v.Some? ==> key in item.fields || (item.dynamicData.Some? && key in item.dynamicData.value)
  {
    if key in item.fields then Some(item.fields[key])
    else if item.dynamicData.Some? && key in item.dynamicData.value then Some(item.dynamicData.value[key])
    else None
  }

  function Row(item: Item, columns: seq<ExportColumn>, toNumber: string -> Option<real>, show: real -> string): seq<Out>
  {
    Seqs.Map((c: ExportColumn) => FormatValue(CellValue(item, c.columnKey), c.columnType, toNumber, show), columns)
  }

  datatype Workbook = Workbook(sheetName: string, data: seq<seq<Out>>, widths: seq<int>, fileName: string)

  /** `${projectName.replace(/[^a-zA-Z0-9]/g, '_')}_${date}.xlsx`, with `date` the part before 'T'. */
  function FileName(projectName: string, nowIso: string): string
  {
    Text.ReplaceNonAlphanumeric(projectName) + "_" + Text.Split(nowIso, 'T')[0] + ".xlsx"
  }

  /** The workbook for the fetched columns and items. */
  function BuildWorkbook(projectName: string, nowIso: string, columns: seq<ExportColumn>, items: seq<Item>,
                         toNumber: string -> Option<real>, show: real -> string): Workbook
  {
    Workbook(SheetName,
             [Seqs.Map((c: ExportColumn) => OText(c.columnLabel), columns)]
               + Seqs.Map((item: Item) => Row(item, columns, toNumber, show), items),
             Seqs.Map((c: ExportColumn) => if |c.columnLabel| > MinWidth then |c.columnLabel| else MinWidth, columns),
             FileName(projectName, nowIso))
  }

  /**
   * The sheet is a table: a header row of labels, then one row per item, every row one
   * cell per column holding that column's formatted value; widths fit the labels, at
   * least 15; the file name is the project name with every character other than an ASCII
   * letter or digit replaced by '_', then '_', the date and '.xlsx'.
   */
  lemma WorkbookShape(projectName: string, nowIso: string, columns: seq<ExportColumn>, items: seq<Item>,
                      toNumber: string -> Option<real>, show: real -> string)
    ensures var w := BuildWorkbook(projectName, nowIso, columns, items, toNumber, show);
      && |w.data| == |items| + 1
      && (forall i :: 0 <= i < |w.data| ==> |w.data[i]| == |columns|)
      && (forall j :: 0 <= j < |columns| ==> w.data[0][j] == OText(columns[j].columnLabel))
      && (forall i, j :: 0 <= i < |items| && 0 <= j < |columns| ==>
            w.data[i + 1][j] == FormatValue(CellValue(items[i], columns[j].columnKey), columns[j].columnType, toNumber, show))
      && (forall j :: 0 <= j < |columns| ==> w.widths[j] >= MinWidth && w.widths[j] >= |columns[j].columnLabel|)
      && Text.EndsWith(w.fileName, ".xlsx")
      && (forall k :: 0 <= k < |projectName| ==> Text.IsAsciiAlphanumeric(w.fileName[k]) || w.fileName[k] == '_')
      && |w.fileName| > |projectName|
      && (forall k :: 0 <= k < |projectName| ==>
            w.fileName[k] == if Text.IsAsciiAlphanumeric(projectName[k]) then projectName[k] else '_')
      && w.fileName[|projectName|..] == "_" + Text.Split(nowIso, 'T')[0] + ".xlsx"
  {
    var w := BuildWorkbook(projectName, nowIso, columns, items, toNumber, show);
    forall i, j | 0 <= i < |items| && 0 <= j < |columns|
      ensures w.data[i + 1][j] == FormatValue(CellValue(items[i], columns[j].columnKey), columns[j].columnType, toNumber, show)
    {
      assert w.data[i + 1] == Row(items[i], columns, toNumber, show);
    }
    var safe := Text.ReplaceNonAlphanumeric(projectName);
    forall k | 0 <= k < |projectName|
      ensures w.fileName[k] == if Text.IsAsciiAlphanumeric(projectName[k]) then projectName[k] else '_'
    {
      assert w.fileName[k] == safe[k];
    }
    assert w.fileName == safe + ("_" + Text.Split(nowIso, 'T')[0] + ".xlsx");
  }

  datatype Outcome = Exported(workbook: Workbook) | NotFound | Failed

  class ExcelExporter {
    var isExporting: bool

    constructor ()
      ensures !isExporting
    {
      isExporting := false;
    }

    /**
     * `exportProjectToExcel`: a failed query fails the export, a missing result reports
     * that there is nothing to export, otherwise the workbook is built. `columns` and
     * `items` are the query outcomes: `Failure` an error, `Success(None)` no data.
     */
    method ExportProjectToExcel(projectName: string, nowIso: string,
                                columns: Result<Option<seq<ExportColumn>>, string>,
                                items: Result<Option<seq<Item>>, string>,
                                toNumber: string -> Option<real>, show: real -> string)
      returns (outcome: Outcome)
      modifies this
      ensures !isExporting
      ensures columns.Failure? || items.Failure? ==> outcome == Failed
      ensures columns.Success? && items.Success? && (columns.value.None? || items.value.None?) ==> outcome == NotFound
      ensures columns.Success? && items.Success? && columns.value.Some? && items.value.Some? ==>
        outcome == Exported(BuildWorkbook(projectName, nowIso, columns.value.value, items.value.value, toNumber, show))
    {
      isExporting := true;
      if columns.Failure? || items.Failure? {
        outcome := Failed;
      } else if columns.value.None? || items.value.None? {
        outcome := NotFound;
      } else {
        outcome := Exported(BuildWorkbook(projectName, nowIso, columns.value.value, items.value.value, toNumber, show));
      }
      isExporting := false;
    }
  }
}
