/**
 * The `useProjectImportWithCreation` hook: imports a file, creates a project for it,
 * adds a text column for every header that is not a built-in column, and inserts the
 * rows that name an item or a description.
 */
module ProjectImportCreation {
  import opened Wrappers
  import opened Files
  import Seqs
  import Text
  import Records
  import ProjectImport

  const NameTooShort := "Nome do projeto deve ter pelo menos 3 caracteres"
  const ProjectError := "Erro ao criar projeto: "
  const ColumnsError := "Erro ao criar colunas personalizadas: "
  const NoValidItems := "Nenhum item válido encontrado no arquivo. Verifique se há dados na coluna \"item\" ou \"descricao\"."
  const ItemsError := "Erro ao inserir itens: "

  /** The item columns with a numeric value. */
  const NumericColumns: seq<string> := [
    "qtd", "mat_uni_pr", "desconto", "cc_mat_uni", "cc_mat_total", "cc_mo_uni", "cc_mo_total",
    "ipi", "vlr_total_estimado", "vlr_total_venda"
  ]

  /** The follow-up columns that start `null` unless the file fills them. */
  const ManagementColumns: seq<string> := [
    "reanalise_escopo", "prioridade_compra", "reanalise_mo", "conferencia_estoque", "a_comprar",
    "comprado", "previsao_chegada", "expedicao", "cronograma_inicio", "data_medicoes",
    "data_conclusao", "manutencao", "status_global"
  ]

  /** The header names that map onto built-in item columns. */
  const SystemColumns: seq<string> := [
    "descricao", "qtd", "unidade", "mat_uni_pr", "desconto", "cc_mat_uni", "cc_mat_total",
    "cc_mo_uni", "cc_mo_total", "ipi", "vlr_total_estimado", "vlr_total_venda", "distribuidor",
    "reanalise_escopo", "prioridade_compra", "reanalise_mo", "conferencia_estoque", "a_comprar",
    "comprado", "previsao_chegada", "expedicao", "cronograma_inicio", "data_medicoes",
    "data_conclusao", "manutencao", "status_global"
  ]

  /** The built-in list is exactly the columns the item row fills from the record. */
  lemma SystemColumnsAreStored(k: string)
    ensures k in SystemColumns <==>
      k in ["descricao", "unidade", "distribuidor"] || k in NumericColumns || k in ManagementColumns
  {
  }

  /** `projectName.trim().length >= 3`. */
  predicate ValidName(projectName: string)
  {
    |Text.Trim(projectName)| >= 3
  }

  /** JavaScript truthiness of a record value: present and not empty. */
  predicate Truthy(v: Option<string>)
  {
    v.Some? && v.value != ""
  }

  /** `a || b` on record values. */
  function Or(a: Option<string>, b: Option<string>): (r: Option<string>)
    ensures Truthy(r) <==> Truthy(a) || Truthy(b)
  {
    if Truthy(a) then a else b
  }

  /** `x || ''`. */
  function OrEmpty(v: Option<string>): string
  {
    if v.Some? then v.value else ""
  }

  /** `parseFloat(item[key] || '0') || 0`. */
  function NumberOf(rec: Records.Record, key: string, parse: string -> Option<real>): real
  {
    var v := Records.Get(rec, key);
    parse(if Truthy(v) then v.value else "0").GetOr(0 as real)
  }

  /** `item[key] || null`. */
  function ValueOrNull(rec: Records.Record, key: string): Option<string>
  {
    var v := Records.Get(rec, key);
    if Truthy(v) then v else None
  }

  /** The keys of the first record that are not built-in columns. */
  function CustomColumns(first: Records.Record): (r: seq<string>)
    ensures forall k :: k in r <==> k in Records.Keys(first) && k !in SystemColumns
  {
    Seqs.Filter((k: string) => k !in SystemColumns, Records.Keys(first))
  }

  /** `key.charAt(0).toUpperCase() + key.slice(1)` (ASCII and Latin-1 letters). */
  function Capitalize(key: string): (caption: string)
    ensures |caption| == |key| && (key != [] ==> caption[1..] == key[1..])
    ensures key != [] ==> caption[0] == Text.UpperChar(key[0])
  {
    if key == [] then [] else [Text.UpperChar(key[0])] + key[1..]
  }

  /** A new `project_columns` row. */
  datatype ColumnInsert = ColumnInsert(projectId: string, columnKey: string, columnLabel: string, columnType: string,
                                       width: string, order: int, isSystem: bool, isCalculated: bool)

  function ColumnInserts(projectId: string, keys: seq<string>): (r: seq<ColumnInsert>)
    ensures |r| == |keys|
    ensures forall i :: 0 <= i < |r| ==> r[i].columnKey == keys[i] && r[i].order == 100 + i
    ensures forall i :: 0 <= i < |r| ==>
      && r[i].projectId == projectId && r[i].columnLabel == Capitalize(keys[i])
      && r[i].columnType == "text" && r[i].width == "120px" && !r[i].isSystem && !r[i].isCalculated
  {
    seq(|keys|, i requires 0 <= i < |keys| =>
      ColumnInsert(projectId, keys[i], Capitalize(keys[i]), "text", "120px", 100 + i, false, false))
  }

  /**
   * The custom columns of a file come after every default column (orders 1 to 13), in
   * header order, with distinct keys, none of them a built-in column.
   */
  lemma CustomColumnsShape(projectId: string, first: Records.Record)
    requires Seqs.Distinct(Records.Keys(first))
    ensures var cols := ColumnInserts(projectId, CustomColumns(first));
      && (forall i, j :: 0 <= i < j < |cols| ==> 13 < cols[i].order < cols[j].order)
      && (forall i, j :: 0 <= i < j < |cols| ==> cols[i].columnKey != cols[j].columnKey)
      && (forall c :: c in cols ==> c.columnKey !in SystemColumns && c.columnType == "text" && !c.isSystem)
  {
    var custom := CustomColumns(first);
    Seqs.FilterDistinct((k: string) => k !in SystemColumns, Records.Keys(first));
    var cols := ColumnInserts(projectId, custom);
    forall c | c in cols
      ensures c.columnKey !in SystemColumns && c.columnType == "text" && !c.isSystem
    {
      var i :| 0 <= i < |cols| && cols[i] == c;
      assert custom[i] in custom;
    }
  }

  /** `item.item || item.descricao || ''`, trimmed, is not empty. */
  predicate IsValidRow(rec: Records.Record)
  {
    Text.Trim(OrEmpty(Or(Records.Get(rec, "item"), Records.Get(rec, "descricao")))) != ""
  }

  function ValidRowFilter(): Records.Record -> bool
  {
    rec => IsValidRow(rec)
  }

  /** The `dynamic_data` object: the custom columns the record defines, in column order. */
  function DynamicData(rec: Records.Record, keys: seq<string>): Records.Record
  {
    if keys == [] then []
    else
      var n := |keys| - 1;
      var prev := DynamicData(rec, keys[..n]);
      match Records.Get(rec, keys[n])
      case None => prev
      case Some(v) => Records.Put(prev, keys[n], v)
  }

  /** A custom column's dynamic value is the record's own value; other keys are absent. */
  lemma {:induction false} DynamicDataGet(rec: Records.Record, keys: seq<string>, k: string)
    ensures Records.Get(DynamicData(rec, keys), k) == if k in keys then Records.Get(rec, k) else None
  {
    if keys != [] {
      var n := |keys| - 1;
      var prev := DynamicData(rec, keys[..n]);
      DynamicDataGet(rec, keys[..n], k);
      assert keys == keys[..n] + [keys[n]];
      match Records.Get(rec, keys[n])
      case None =>
      case Some(v) =>
        if keys[n] == k {
          Records.GetPutSame(prev, k, v);
        } else {
          Records.GetPutOther(prev, keys[n], v, k);
        }
    }
  }

  /** The `customColumns.forEach` that fills `dynamicData`. */
  method BuildDynamicData(rec: Records.Record, keys: seq<string>) returns (data: Records.Record)
    ensures data == DynamicData(rec, keys)
  {
    data := [];
    var i := 0;
    while i < |keys|
      invariant 0 <= i <= |keys|
      invariant data == DynamicData(rec, keys[..i])
    {
      Seqs.TakeSnoc(keys, i);
      var v := Records.Get(rec, keys[i]);
      if v.Some? {
        data := Records.Put(data, keys[i], v.value);
      }
      i := i + 1;
    }
    Seqs.TakeAll(keys, i);
  }

  /** A `project_items` row as the hook builds it. */
  datatype ItemRow = ItemRow(
    projectId: string, descricao: string, unidade: string, distribuidor: string,
    numbers: map<string, real>, management: map<string, Option<string>>, dynamicData: Records.Record)

  function ItemRowOf(projectId: string, rec: Records.Record, dynamicData: Records.Record,
                     parse: string -> Option<real>): ItemRow
  {
    ItemRow(projectId,
            OrEmpty(Or(Records.Get(rec, "descricao"), Records.Get(rec, "item"))),
            OrEmpty(Records.Get(rec, "unidade")),
            OrEmpty(Records.Get(rec, "distribuidor")),
            map k | k in NumericColumns :: NumberOf(rec, k, parse),
            map k | k in ManagementColumns :: ValueOrNull(rec, k),
            dynamicData)
  }

  function RowBuilder(projectId: string, custom: seq<string>, parse: string -> Option<real>): Records.Record -> ItemRow
  {
    rec => ItemRowOf(projectId, rec, DynamicData(rec, custom), parse)
  }

  /** Every row that passes the filter is stored with a non-empty description. */
  lemma ValidRowHasDescription(projectId: string, custom: seq<string>, rec: Records.Record,
                               parse: string -> Option<real>)
    requires IsValidRow(rec)
    ensures RowBuilder(projectId, custom, parse)(rec).descricao != ""
  {
  }

  /**
   * Nothing the file says is lost: every key of a record either names a built-in column
   * that the row stores, or is a custom column whose value lands in `dynamic_data`.
   */
  lemma RecordFullyStored(projectId: string, first: Records.Record, rec: Records.Record,
                          parse: string -> Option<real>, k: string)
    requires Records.Keys(rec) == Records.Keys(first)
    requires k in Records.Keys(rec)
    ensures var row := RowBuilder(projectId, CustomColumns(first), parse)(rec);
      || k in SystemColumns
      || (Records.Get(row.dynamicData, k) == Records.Get(rec, k) && Records.Get(rec, k).Some?)
  {
    if k !in SystemColumns {
      DynamicDataGet(rec, CustomColumns(first), k);
    }
  }

  /** The `validItems.map(...)` that builds the rows to insert. */
  method BuildItemRows(projectId: string, custom: seq<string>, valid: seq<Records.Record>,
                       parse: string -> Option<real>) returns (items: seq<ItemRow>)
    ensures items == Seqs.Map(RowBuilder(projectId, custom, parse), valid)
  {
    items := [];
    var i := 0;
    while i < |valid|
      invariant 0 <= i <= |valid|
      invariant items == Seqs.Map(RowBuilder(projectId, custom, parse), valid[..i])
    {
      var dynamicData := BuildDynamicData(valid[i], custom);
      var row := ItemRowOf(projectId, valid[i], dynamicData, parse);
      assert row == RowBuilder(projectId, custom, parse)(valid[i]);
      Seqs.MapTakeSnoc(RowBuilder(projectId, custom, parse), valid, i);
      items := items + [row];
      i := i + 1;
    }
    Seqs.TakeAll(valid, i);
  }

  /** The row for the `projects` table. */
  datatype ProjectInsert = ProjectInsert(name: string, description: string, createdBy: Option<string>)

    /**
   * The rows `importAndCreateProject` sends for the imported records `recs`, and its
   * result: the project insert; on success its custom columns; unless their insert fails,
   * the item rows of the valid records, refused when there are none or the insert fails.
   */
  predicate Created(recs: seq<Records.Record>, projectName: string, projectDescription: Option<string>,
                    userId: Option<string>, parse: string -> Option<real>,
                    projectResult: Result<string, string>, columnsError: Option<string>, itemsError: Option<string>,
                    r: Result<string, string>, project: Option<ProjectInsert>, columns: seq<ColumnInsert>,
                    items: seq<ItemRow>)
    requires recs != []
  {
    && project == Some(ProjectInsert(Text.Trim(projectName),
                                     if projectDescription.Some? then Text.Trim(projectDescription.value) else "",
                                     userId))
    && (projectResult.Failure? ==> r == Failure(ProjectError + projectResult.error) && columns == [] && items == [])
    && (projectResult.Success? ==>
          var custom := CustomColumns(recs[0]);
          var valid := Seqs.Filter(ValidRowFilter(), recs);
          && columns == ColumnInserts(projectResult.value, custom)
          && (custom != [] && columnsError.Some? ==> r == Failure(ColumnsError + columnsError.value) && items == [])
          && (!(custom != [] && columnsError.Some?) ==>
                && items == Seqs.Map(RowBuilder(projectResult.value, custom, parse), valid)
                && r == if valid == [] then Failure(NoValidItems)
                        else if itemsError.Some? then Failure(ItemsError + itemsError.value)
                        else Success(projectResult.value)))
  }

/**
   * The steps of `importAndCreateProject` after a successful import of `recs`: the
   * project insert, the custom-column inserts, then the item rows of the valid records.
   */
  method CreateProject(recs: seq<Records.Record>, projectName: string, projectDescription: Option<string>,
                       userId: Option<string>, parse: string -> Option<real>,
                       projectResult: Result<string, string>, columnsError: Option<string>,
                       itemsError: Option<string>)
    returns (r: Result<string, string>, project: Option<ProjectInsert>, columns: seq<ColumnInsert>, items: seq<ItemRow>)
    requires recs != []
    ensures Created(recs, projectName, projectDescription, userId, parse, projectResult, columnsError, itemsError,
                    r, project, columns, items)
  {
    columns, items := [], [];
    project := Some(ProjectInsert(Text.Trim(projectName),
                                  if projectDescription.Some? then Text.Trim(projectDescription.value) else "",
                                  userId));
    if projectResult.Failure? {
      r := Failure(ProjectError + projectResult.error);
      return;
    }
    var projectId := projectResult.value;
    var custom := CustomColumns(recs[0]);
    columns := ColumnInserts(projectId, custom);
    if custom != [] && columnsError.Some? {
      r := Failure(ColumnsError + columnsError.value);
      return;
    }
    var valid := Seqs.Filter(ValidRowFilter(), recs);
    items := BuildItemRows(projectId, custom, valid, parse);
    if valid == [] {
      r := Failure(NoValidItems);
    } else if itemsError.Some? {
      r := Failure(ItemsError + itemsError.value);
    } else {
      r := Success(projectId);
    }
  }

  class ImportWithCreation {
    const importer: ProjectImport.ProjectImporter
    var loading: bool
    var error: Option<string>

    constructor (importer: ProjectImport.ProjectImporter)
      ensures this.importer == importer && !loading && error == None
    {
      this.importer := importer;
      loading := false;
      error := None;
    }

    /**
     * `importAndCreateProject`. The database outcomes are parameters: `projectResult` is
     * the new project's id or the error message, `columnsError` and `itemsError` the
     * messages of failed inserts. Returns the project id or the failure message, and the
     * rows it sent.
     */
    method ImportAndCreateProject(file: UploadedFile, projectName: string, projectDescription: Option<string>,
                                  userId: Option<string>, parse: string -> Option<real>,
                                  projectResult: Result<string, string>, columnsError: Option<string>,
                                  itemsError: Option<string>)
      returns (r: Result<string, string>, project: Option<ProjectInsert>, columns: seq<ColumnInsert>, items: seq<ItemRow>)
      modifies this, importer
      ensures !loading
      ensures error == if r.Failure? then Some(r.error) else None
      ensures !ValidName(projectName) ==> r == Failure(NameTooShort) && project == None && columns == [] && items == []
      ensures ValidName(projectName) && ProjectImport.Imported(file).Failure? ==>
        r == Failure(ProjectImport.Imported(file).error) && project == None && columns == [] && items == []
      ensures ValidName(projectName) && ProjectImport.Imported(file).Success? ==>
        Created(ProjectImport.Imported(file).value, projectName, projectDescription, userId, parse,
                projectResult, columnsError, itemsError, r, project, columns, items)
    {
      loading := true;
      error := None;
      project, columns, items := None, [], [];
      if !ValidName(projectName) {
        r := Failure(NameTooShort);
      } else {
        var imported := importer.ImportProjects(file);
        if imported.Failure? {
          r := Failure(imported.error);
        } else {
          r, project, columns, items := CreateProject(imported.value, projectName, projectDescription, userId, parse,
                                                      projectResult, columnsError, itemsError);
        }
      }
      error := if r.Failure? then Some(r.error) else None;
      loading := false;
    }
  }
}
