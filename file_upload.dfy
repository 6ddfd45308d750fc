/**
 * The `FileUpload` admin component: parses a CSV or XLSX budget sheet into project
 * items, mapping known header names onto the item columns, and inserts them into the
 * project with empty management columns.
 */
module FileUpload {
  import opened Wrappers
  import opened Files
  import Seqs
  import Text

  const TooShort := "Arquivo deve conter pelo menos um cabeçalho e uma linha de dados"
  const ReadError := "Erro ao ler o arquivo"
  const Unsupported := "Formato de arquivo não suportado. Use CSV ou XLSX."
  const NoValidData := "Nenhum dado válido encontrado no arquivo"
  const CsvMimeType := "text/csv"
  const XlsxMimeType := "application/vnd.openxmlformats-officedocument.spreadsheetml.sheet"

  /** The item columns the parser fills. */
  datatype Field =
    | ItemCode | Descricao | Qtd | Unidade | MatUniPr | Desconto | CcMatUni | CcMatTotal
    | CcMoUni | CcMoTotal | Ipi | VlrTotalEstimado | VlrTotalVenda | Distribuidor

  datatype FieldValue = Str(text: string) | Num(number: real)

  /** A parsed item: the columns some header assigned; an absent column is `undefined`. */
  type Item = map<Field, FieldValue>

  /** The `switch (header)` of both parsers. */
  function FieldOf(header: string): Option<Field>
  {
    if header == "item" then Some(ItemCode)
    else if header == "descrição" || header == "descricao" then Some(Descricao)
    else if header == "qtd" || header == "quantidade" then Some(Qtd)
    else if header == "unidade" then Some(Unidade)
    else if header == "mat. uni. preço" || header == "mat_uni_pr" then Some(MatUniPr)
    else if header == "desconto (%)" || header == "desconto" then Some(Desconto)
    else if header == "cc mat. uni." || header == "cc_mat_uni" then Some(CcMatUni)
    else if header == "cc mat. total" || header == "cc_mat_total" then Some(CcMatTotal)
    else if header == "cc mo uni." || header == "cc_mo_uni" then Some(CcMoUni)
    else if header == "cc mo total" || header == "cc_mo_total" then Some(CcMoTotal)
    else if header == "ipi" then Some(Ipi)
    else if header == "vlr. total estimado" || header == "vlr_total_estimado" then Some(VlrTotalEstimado)
    else if header == "vlr. total venda" || header == "vlr_total_venda" then Some(VlrTotalVenda)
    else if header == "distribuidor" then Some(Distribuidor)
    else None
  }

  /** The database column each field is stored in. */
  function ColumnName(f: Field): string
  {
    match f
    case ItemCode => "item"
    case Descricao => "descricao"
    case Qtd => "qtd"
    case Unidade => "unidade"
    case MatUniPr => "mat_uni_pr"
    case Desconto => "desconto"
    case CcMatUni => "cc_mat_uni"
    case CcMatTotal => "cc_mat_total"
    case CcMoUni => "cc_mo_uni"
    case CcMoTotal => "cc_mo_total"
    case Ipi => "ipi"
    case VlrTotalEstimado => "vlr_total_estimado"
    case VlrTotalVenda => "vlr_total_venda"
    case Distribuidor => "distribuidor"
  }

  /** A sheet exported with the database's own column names is read back column for column. */
  lemma ColumnNamesAreHeaders(f: Field)
    ensures FieldOf(ColumnName(f)) == Some(f)
  {
    if f in {ItemCode, Descricao, Qtd, Unidade} {
      ItemColumnNamesAreHeaders(f);
    } else if f in {MatUniPr, Desconto, CcMatUni, CcMatTotal} {
      MaterialColumnNamesAreHeaders(f);
    } else if f in {CcMoUni, CcMoTotal, Ipi} {
      LabourColumnNamesAreHeaders(f);
    } else {
      TotalsColumnNamesAreHeaders(f);
    }
  }

  lemma ItemColumnNamesAreHeaders(f: Field)
    requires f in {ItemCode, Descricao, Qtd, Unidade}
    ensures FieldOf(ColumnName(f)) == Some(f)
  {
  }

  lemma MaterialColumnNamesAreHeaders(f: Field)
    requires f in {MatUniPr, Desconto, CcMatUni, CcMatTotal}
    ensures FieldOf(ColumnName(f)) == Some(f)
  {
  }

  lemma LabourColumnNamesAreHeaders(f: Field)
    requires f in {CcMoUni, CcMoTotal, Ipi}
    ensures FieldOf(ColumnName(f)) == Some(f)
  {
  }

  lemma TotalsColumnNamesAreHeaders(f: Field)
    requires f in {VlrTotalEstimado, VlrTotalVenda, Distribuidor}
    ensures FieldOf(ColumnName(f)) == Some(f)
  {
  }

  /** Different fields are stored in different columns. */
  lemma ColumnNamesDistinct(f: Field, g: Field)
    requires f != g
    ensures ColumnName(f) != ColumnName(g)
  {
    ColumnNamesAreHeaders(f);
    ColumnNamesAreHeaders(g);
  }

  predicate IsNumeric(f: Field)
  {
    f !in {ItemCode, Descricao, Unidade, Distribuidor}
  }

  /** The value a field receives: `parseFloat(value) || 0` for numbers, the text otherwise. */
  function FieldValueOf(f: Field, value: string, parse: string -> Option<real>): (v: FieldValue)
    ensures IsNumeric(f) <==> v.Num?
    ensures !IsNumeric(f) ==> v == Str(value)
    ensures IsNumeric(f) && parse(value).Some? ==> v == Num(parse(value).value)
    ensures IsNumeric(f) && parse(value).None? ==> v == Num(0 as real)
  {
    if IsNumeric(f) then Num(parse(value).GetOr(0 as real)) else Str(value)
  }

  /** The item the `headers.forEach` builds from one row's trimmed values. */
  function BuildItem(headers: seq<string>, values: seq<string>, parse: string -> Option<real>): Item
  {
    Assign(FieldOf, headers, values, parse)
  }

  /** The `forEach` over the headers, for any header-to-field mapping `fieldOf`. */
  function Assign(fieldOf: string -> Option<Field>, headers: seq<string>, values: seq<string>,
                  parse: string -> Option<real>): Item
  {
    if headers == [] then map[]
    else
      var n := |headers| - 1;
      var item := Assign(fieldOf, headers[..n], values, parse);
      match fieldOf(headers[n])
      case None => item
      case Some(f) => item[f := FieldValueOf(f, TextAt(values, n), parse)]
  }

  /** The last column whose header maps to `f` decides the field's value. */
  lemma {:induction false} AssignField(fieldOf: string -> Option<Field>, headers: seq<string>, values: seq<string>,
                                       parse: string -> Option<real>, f: Field, i: nat)
    requires i < |headers| && fieldOf(headers[i]) == Some(f)
    requires forall j :: i < j < |headers| ==> fieldOf(headers[j]) != Some(f)
    ensures var item := Assign(fieldOf, headers, values, parse);
      f in item && item[f] == FieldValueOf(f, TextAt(values, i), parse)
  {
    var n := |headers| - 1;
    if i < n {
      AssignField(fieldOf, headers[..n], values, parse, f, i);
    }
  }

  /** A field no header maps to stays unset. */
  lemma {:induction false} AssignUnset(fieldOf: string -> Option<Field>, headers: seq<string>, values: seq<string>,
                                       parse: string -> Option<real>, f: Field)
    requires forall j :: 0 <= j < |headers| ==> fieldOf(headers[j]) != Some(f)
    ensures f !in Assign(fieldOf, headers, values, parse)
  {
    if headers != [] {
      AssignUnset(fieldOf, headers[..|headers| - 1], values, parse, f);
    }
  }

  /**
   * A field is set exactly when some header maps to it, and then holds the value of the
   * last such column; unknown headers are ignored.
   */
  lemma BuildItemField(headers: seq<string>, values: seq<string>, parse: string -> Option<real>, f: Field, i: nat)
    requires i < |headers| && FieldOf(headers[i]) == Some(f)
    requires forall j :: i < j < |headers| ==> FieldOf(headers[j]) != Some(f)
    ensures var item := BuildItem(headers, values, parse);
      f in item && item[f] == FieldValueOf(f, TextAt(values, i), parse)
  {
    AssignField(FieldOf, headers, values, parse, f, i);
  }

  lemma BuildItemUnset(headers: seq<string>, values: seq<string>, parse: string -> Option<real>, f: Field)
    requires forall j :: 0 <= j < |headers| ==> FieldOf(headers[j]) != Some(f)
    ensures f !in BuildItem(headers, values, parse)
  {
    AssignUnset(FieldOf, headers, values, parse, f);
  }

  /** `if (item.descricao)`: only items with a non-empty description are kept. */
  predicate HasDescription(item: Item)
  {
    Descricao in item && item[Descricao] != Str("")
  }

  /** Column `i` is the last one whose header names the description. */
  predicate DescriptionColumn(headers: seq<string>, i: int)
  {
    0 <= i < |headers| && FieldOf(headers[i]) == Some(Descricao)
    && forall j :: i < j < |headers| ==> FieldOf(headers[j]) != Some(Descricao)
  }

  /** No header names the description. */
  predicate NoDescriptionColumn(headers: seq<string>)
  {
    forall j :: 0 <= j < |headers| ==> FieldOf(headers[j]) != Some(Descricao)
  }

  /**
   * A row's item is kept exactly when the text of its last description column is not
   * empty, and then the description is that text; with no description column it never is.
   */
  lemma KeptIffDescription(headers: seq<string>, values: seq<string>, parse: string -> Option<real>)
    ensures NoDescriptionColumn(headers) ==> KeptItem(BuildItem(headers, values, parse)) == []
    ensures forall i :: DescriptionColumn(headers, i) ==>
      var kept := KeptItem(BuildItem(headers, values, parse));
      && (kept != [] <==> TextAt(values, i) != "")
      && (kept != [] ==> Descricao in kept[0] && kept[0][Descricao] == Str(TextAt(values, i)))
  {
    if NoDescriptionColumn(headers) {
      BuildItemUnset(headers, values, parse, Descricao);
    }
    forall i | DescriptionColumn(headers, i)
      ensures var kept := KeptItem(BuildItem(headers, values, parse));
        && (kept != [] <==> TextAt(values, i) != "")
        && (kept != [] ==> Descricao in kept[0] && kept[0][Descricao] == Str(TextAt(values, i)))
    {
      BuildItemField(headers, values, parse, Descricao, i);
    }
  }

  /** The item of one row, when it is kept. */
  function KeptItem(item: Item): seq<Item>
  {
    if HasDescription(item) then [item] else []
  }

  /** `h.trim().toLowerCase()`. */
  function CsvHeader(h: string): string
  {
    Text.Lower(Text.Trim(h))
  }

  function CsvHeaders(text: string): seq<string>
  {
    Seqs.Map(CsvHeader, Text.Split(Text.Split(text, '\n')[0], ','))
  }

  /** The item one data line contributes: none for a line with fewer values than headers. */
  function CsvLineItems(headers: seq<string>, line: string, parse: string -> Option<real>): seq<Item>
  {
    var values := Text.Split(line, ',');
    if |values| < |headers| then [] else KeptItem(BuildItem(headers, Seqs.Map(Text.Trim, values), parse))
  }

  /** The items of the data lines: rows with fewer values than headers are skipped. */
  function CsvItems(headers: seq<string>, lines: seq<string>, parse: string -> Option<real>): (r: seq<Item>)
    ensures |r| <= |lines|
    ensures forall item :: item in r ==> HasDescription(item)
  {
    if lines == [] then []
    else
      var n := |lines| - 1;
      CsvItems(headers, lines[..n], parse) + CsvLineItems(headers, lines[n], parse)
  }

  /**
   * A line with fewer values than headers gives nothing; otherwise its item is kept
   * exactly when the trimmed value in the last description column is not empty.
   */
  lemma CsvLineKept(headers: seq<string>, line: string, parse: string -> Option<real>)
    ensures |Text.Split(line, ',')| < |headers| ==> CsvLineItems(headers, line, parse) == []
    ensures NoDescriptionColumn(headers) ==> CsvLineItems(headers, line, parse) == []
    ensures forall i :: DescriptionColumn(headers, i) && |Text.Split(line, ',')| >= |headers| ==>
      var kept := CsvLineItems(headers, line, parse);
      && (kept != [] <==> Text.Trim(Text.Split(line, ',')[i]) != "")
      && (kept != [] ==> Descricao in kept[0] && kept[0][Descricao] == Str(Text.Trim(Text.Split(line, ',')[i])))
  {
    var split := Text.Split(line, ',');
    var values := Seqs.Map(Text.Trim, split);
    KeptIffDescription(headers, values, parse);
    forall i | DescriptionColumn(headers, i) && |split| >= |headers|
      ensures TextAt(values, i) == Text.Trim(split[i])
    {
    }
  }

  lemma CsvItemsStep(headers: seq<string>, lines: seq<string>, i: nat, parse: string -> Option<real>)
    requires i < |lines|
    ensures CsvItems(headers, lines[..i + 1], parse) == CsvItems(headers, lines[..i], parse) + CsvLineItems(headers, lines[i], parse)
  {
    Seqs.TakeSnoc(lines, i);
  }

  /** The body of the CSV loop: a line short of values is skipped, an item without description dropped. */
  method ParseCsvLine(headers: seq<string>, line: string, parse: string -> Option<real>) returns (kept: seq<Item>)
    ensures kept == CsvLineItems(headers, line, parse)
    ensures |Text.Split(line, ',')| < |headers| || NoDescriptionColumn(headers) ==> kept == []
    ensures forall i :: DescriptionColumn(headers, i) && |Text.Split(line, ',')| >= |headers| ==>
      (kept != [] <==> Text.Trim(Text.Split(line, ',')[i]) != "")
  {
    CsvLineKept(headers, line, parse);
    kept := [];
    var values := Text.Split(line, ',');
    if |values| >= |headers| {
      var item := BuildItem(headers, Seqs.Map(Text.Trim, values), parse);
      if HasDescription(item) {
        kept := [item];
      }
    }
  }

  /** `parseCSV` with its `for` loop over the lines after the header line. */
  method ParseCsv(text: string, parse: string -> Option<real>) returns (data: seq<Item>)
    ensures data == CsvItems(CsvHeaders(text), Text.Split(text, '\n')[1..], parse)
  {
    var lines := Text.Split(text, '\n');
    var headers := CsvHeaders(text);
    var dataLines := lines[1..];
    data := [];
    var i := 0;
    while i < |dataLines|
      invariant 0 <= i <= |dataLines|
      invariant data == CsvItems(headers, dataLines[..i], parse)
    {
      var kept := ParseCsvLine(headers, dataLines[i], parse);
      data := data + kept;
      CsvItemsStep(headers, dataLines, i, parse);
      i := i + 1;
    }
    Seqs.TakeAll(dataLines, i);
  }

  /** `h?.toString().trim().toLowerCase() || ''`. */
  function SheetHeader(c: Cell): string
  {
    if c.Some? then Text.Lower(Text.Trim(c.value)) else ""
  }

  /** `row[index]?.toString().trim() || ''` for every cell of the row. */
  function SheetValues(row: seq<Cell>): seq<string>
  {
    Seqs.Map((c: Cell) => Text.Trim(CellText(c)), row)
  }

  /** The item one data row contributes: none for an empty row. */
  function SheetRowItems(headers: seq<string>, row: seq<Cell>, parse: string -> Option<real>): seq<Item>
  {
    if row == [] then [] else KeptItem(BuildItem(headers, SheetValues(row), parse))
  }

  /** The items of the data rows: empty rows are skipped, short rows read as empty cells. */
  function SheetItems(headers: seq<string>, rows: Sheet, parse: string -> Option<real>): (r: seq<Item>)
    ensures |r| <= |rows|
    ensures forall item :: item in r ==> HasDescription(item)
  {
    if rows == [] then []
    else
      var n := |rows| - 1;
      SheetItems(headers, rows[..n], parse) + SheetRowItems(headers, rows[n], parse)
  }

  /**
   * An empty row gives nothing; otherwise its item is kept exactly when the trimmed text
   * of its cell in the last description column is not empty ('' for a blank or missing cell).
   */
  lemma SheetRowKept(headers: seq<string>, row: seq<Cell>, parse: string -> Option<real>)
    ensures row == [] || NoDescriptionColumn(headers) ==> SheetRowItems(headers, row, parse) == []
    ensures forall i :: DescriptionColumn(headers, i) && row != [] ==>
      var kept := SheetRowItems(headers, row, parse);
      && (kept != [] <==> TextAt(SheetValues(row), i) != "")
      && (kept != [] ==> Descricao in kept[0] && kept[0][Descricao] == Str(TextAt(SheetValues(row), i)))
  {
    KeptIffDescription(headers, SheetValues(row), parse);
  }

  lemma SheetItemsStep(headers: seq<string>, rows: Sheet, i: nat, parse: string -> Option<real>)
    requires i < |rows|
    ensures SheetItems(headers, rows[..i + 1], parse) == SheetItems(headers, rows[..i], parse) + SheetRowItems(headers, rows[i], parse)
  {
    Seqs.TakeSnoc(rows, i);
  }

  /** The body of the XLSX loop: an empty row is skipped, an item without description dropped. */
  method ParseSheetRow(headers: seq<string>, row: seq<Cell>, parse: string -> Option<real>) returns (kept: seq<Item>)
    ensures kept == SheetRowItems(headers, row, parse)
    ensures row == [] || NoDescriptionColumn(headers) ==> kept == []
    ensures forall i :: DescriptionColumn(headers, i) && row != [] ==> (kept != [] <==> TextAt(SheetValues(row), i) != "")
  {
    SheetRowKept(headers, row, parse);
    kept := [];
    if |row| != 0 {
      var item := BuildItem(headers, SheetValues(row), parse);
      if HasDescription(item) {
        kept := [item];
      }
    }
  }

  /** `parseXLSX` on a decoded sheet: fewer than two rows is refused. */
  method ParseSheet(sheet: Sheet, parse: string -> Option<real>) returns (r: Result<seq<Item>, string>)
    ensures |sheet| < 2 ==> r == Failure(TooShort)
    ensures |sheet| >= 2 ==> r == Success(SheetItems(Seqs.Map(SheetHeader, sheet[0]), sheet[1..], parse))
  {
    if |sheet| < 2 {
      return Failure(TooShort);
    }
    var headers := Seqs.Map(SheetHeader, sheet[0]);
    var dataRows := sheet[1..];
    var parsed: seq<Item> := [];
    var i := 0;
    while i < |dataRows|
      invariant 0 <= i <= |dataRows|
      invariant parsed == SheetItems(headers, dataRows[..i], parse)
    {
      var kept := ParseSheetRow(headers, dataRows[i], parse);
      parsed := parsed + kept;
      SheetItemsStep(headers, dataRows, i, parse);
      i := i + 1;
    }
    Seqs.TakeAll(dataRows, i);
    return Success(parsed);
  }

  /** The sheet a spreadsheet program makes of a CSV text: one row per line, one cell per field. */
  function SheetOfCsv(lines: seq<string>): Sheet
  {
    Seqs.Map((line: string) => Seqs.Map((v: string) => Some(v), Text.Split(line, ',')), lines)
  }

  /**
   * The two parsers agree: when every data line has a value for each header, the
   * XLSX parser reads the same items from the sheet of a CSV text as the CSV parser.
   */
  lemma ParsersAgree(text: string, parse: string -> Option<real>)
    requires var lines := Text.Split(text, '\n');
      |lines| >= 2 && forall k :: 1 <= k < |lines| ==> |Text.Split(lines[k], ',')| >= |CsvHeaders(text)|
    ensures var lines := Text.Split(text, '\n');
      var sheet := SheetOfCsv(lines);
      |sheet| >= 2
      && Seqs.Map(SheetHeader, sheet[0]) == CsvHeaders(text)
      && SheetItems(Seqs.Map(SheetHeader, sheet[0]), sheet[1..], parse) == CsvItems(CsvHeaders(text), lines[1..], parse)
  {
    var lines := Text.Split(text, '\n');
    var sheet := SheetOfCsv(lines);
    var headers := CsvHeaders(text);
    HeaderRowAgrees(lines);
    SheetOfCsvTail(lines);
    DataLinesAgree(headers, lines[1..], parse);
  }

  lemma HeaderRowAgrees(lines: seq<string>)
    requires |lines| >= 1
    ensures Seqs.Map(SheetHeader, SheetOfCsv(lines)[0]) == Seqs.Map(CsvHeader, Text.Split(lines[0], ','))
  {
    var first := Text.Split(lines[0], ',');
    var row := SheetOfCsv(lines)[0];
    assert row == Seqs.Map((v: string) => Some(v), first);
    forall k | 0 <= k < |first|
      ensures SheetHeader(row[k]) == CsvHeader(first[k])
    {
      assert row[k] == Some(first[k]);
    }
  }

  lemma SheetOfCsvTail(lines: seq<string>)
    requires |lines| >= 1
    ensures SheetOfCsv(lines)[1..] == SheetOfCsv(lines[1..])
  {
  }

  lemma {:induction false} DataLinesAgree(headers: seq<string>, lines: seq<string>, parse: string -> Option<real>)
    requires forall k :: 0 <= k < |lines| ==> |Text.Split(lines[k], ',')| >= |headers|
    ensures SheetItems(headers, SheetOfCsv(lines), parse) == CsvItems(headers, lines, parse)
  {
    if lines != [] {
      var n := |lines| - 1;
      var sheet := SheetOfCsv(lines);
      assert sheet[..n] == SheetOfCsv(lines[..n]);
      DataLinesAgree(headers, lines[..n], parse);
      var pieces := Text.Split(lines[n], ',');
      assert sheet[n] == Seqs.Map((v: string) => Some(v), pieces);
      assert SheetValues(sheet[n]) == Seqs.Map(Text.Trim, pieces);
    }
  }

  /** The management columns every inserted item starts with; `None` is SQL `null`. */
  const ManagementDefaults: seq<(string, Option<string>)> := [
    ("reanalise_escopo", Some("")), ("prioridade_compra", Some("")), ("reanalise_mo", Some("")),
    ("conferencia_estoque", Some("")), ("a_comprar", Some("")), ("comprado", Some("")),
    ("previsao_chegada", None), ("expedicao", Some("")), ("cronograma_inicio", None),
    ("data_medicoes", None), ("data_conclusao", None), ("manutencao", Some("")), ("status_global", Some(""))
  ]

  /** A `project_items` row; fields the item left `undefined` are left to the database. */
  datatype ItemInsert = ItemInsert(projectId: string, fields: map<Field, FieldValue>,
                                   management: seq<(string, Option<string>)>)

  /** The row inserted for a parsed item: every field but the item code, plus the defaults. */
  function InsertFor(projectId: string, item: Item): (row: ItemInsert)
    ensures row.projectId == projectId && row.management == ManagementDefaults
    ensures row.fields.Keys == item.Keys - {ItemCode}
    ensures forall f :: f in row.fields ==> row.fields[f] == item[f]
  {
    ItemInsert(projectId, map f | f in item && f != ItemCode :: item[f], ManagementDefaults)
  }

  function InsertRows(projectId: string, items: seq<Item>): seq<ItemInsert>
  {
    Seqs.Map((item: Item) => InsertFor(projectId, item), items)
  }

  /** Date columns start as `null`, every other management column as the empty text. */
  lemma ManagementDefaultsShape()
    ensures Seqs.Distinct(Seqs.Map((e: (string, Option<string>)) => e.0, ManagementDefaults))
    ensures forall i :: 0 <= i < |ManagementDefaults| ==>
      (ManagementDefaults[i].1.None? <==>
         ManagementDefaults[i].0 in {"previsao_chegada", "cronograma_inicio", "data_medicoes", "data_conclusao"})
    ensures forall i :: 0 <= i < |ManagementDefaults| && ManagementDefaults[i].1.Some? ==> ManagementDefaults[i].1.value == ""
  {
  }

  datatype Status = Idle | Succeeded | Failed

  class Uploader {
    const projectId: string
    var isProcessing: bool
    var uploadStatus: Status
    var uploadedCount: nat

    constructor (projectId: string)
      ensures this.projectId == projectId && !isProcessing && uploadStatus == Idle && uploadedCount == 0
    {
      this.projectId := projectId;
      isProcessing := false;
      uploadStatus := Idle;
      uploadedCount := 0;
    }

    /**
     * `processFile`: CSV by MIME type or extension first, then XLSX, else refused; no
     * items is refused; otherwise the rows are inserted. `insertError` is the insert's
     * outcome. Returns the rows sent and the message of a failure.
     */
    method ProcessFile(file: UploadedFile, parse: string -> Option<real>, insertError: Option<string>)
      returns (sent: seq<ItemInsert>, failure: Option<string>)
      modifies this
      ensures !isProcessing
      ensures uploadStatus == if failure.None? then Succeeded else Failed
      ensures failure.None? ==> sent != [] && uploadedCount == |sent|
      ensures failure.Some? ==> uploadedCount == old(uploadedCount)
      ensures sent != [] ==> failure == insertError
      ensures var isCsv := file.mimeType == CsvMimeType || Text.EndsWith(file.name, ".csv");
        var isXlsx := file.mimeType == XlsxMimeType || Text.EndsWith(file.name, ".xlsx");
        var parsed: Result<seq<Item>, string> :=
          if isCsv then
            (if file.text.Failure? then Failure(file.text.error)
             else Success(CsvItems(CsvHeaders(file.text.value), Text.Split(file.text.value, '\n')[1..], parse)))
          else if isXlsx then
            match file.sheet
            case ReadFailed => Failure(ReadError)
            case DecodeFailed(m) => Failure(m)
            case Decoded(rows) =>
              if |rows| < 2 then Failure(TooShort)
              else Success(SheetItems(Seqs.Map(SheetHeader, rows[0]), rows[1..], parse))
          else Failure(Unsupported);
        && (parsed.Failure? ==> sent == [] && failure == Some(parsed.error))
        && (parsed.Success? && parsed.value == [] ==> sent == [] && failure == Some(NoValidData))
        && (parsed.Success? && parsed.value != [] ==> sent == InsertRows(projectId, parsed.value))
    {
      isProcessing := true;
      uploadStatus := Idle;
      sent := [];
      var parsed: Result<seq<Item>, string>;
      if file.mimeType == CsvMimeType || Text.EndsWith(file.name, ".csv") {
        if file.text.Failure? {
          parsed := Failure(file.text.error);
        } else {
          var data := ParseCsv(file.text.value, parse);
          parsed := Success(data);
        }
      } else if file.mimeType == XlsxMimeType || Text.EndsWith(file.name, ".xlsx") {
        match file.sheet
        case ReadFailed =>
          parsed := Failure(ReadError);
        case DecodeFailed(m) =>
          parsed := Failure(m);
        case Decoded(rows) =>
          parsed := ParseSheet(rows, parse);
      } else {
        parsed := Failure(Unsupported);
      }
      if parsed.Failure? {
        failure := Some(parsed.error);
      } else if parsed.value == [] {
        failure := Some(NoValidData);
      } else {
        sent := InsertRows(projectId, parsed.value);
        failure := insertError;
        if insertError.None? {
          uploadedCount := |parsed.value|;
        }
      }
      uploadStatus := if failure.None? then Succeeded else Failed;
      isProcessing := false;
    }
  }
}
