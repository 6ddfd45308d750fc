/**
 * The `RolePermissionManager` admin component: the custom roles, the project's columns
 * and the (role, column) permission rows it keeps in component state, and the handlers
 * that change them after the database call succeeds.
 */
module RolePermissionManager {
  import opened Wrappers
  import opened Levels
  import Seqs
  import Text
  import UserPermissions

  datatype CustomRole = CustomRole(id: string, name: string, description: string, color: string)

  /** A `project_columns` row; `None` stands for a column the insert left to the database. */
  datatype ProjectColumn = ProjectColumn(
    id: string, projectId: string, columnKey: string, columnLabel: string, columnType: string,
    width: Option<string>, order: int, isSystem: bool, isCalculated: Option<bool>)

  datatype RolePermission = RolePermission(id: string, roleName: string, projectId: string,
                                           columnKey: string, level: Level)

  /** A permission row sent to the database, which assigns its id. */
  datatype PermissionInsert = PermissionInsert(roleName: string, projectId: string,
                                               columnKey: string, level: Level)

  function RoleNameOf(r: CustomRole): string { r.name }
  function ColumnIdOf(c: ProjectColumn): string { c.id }
  function PermissionIdOf(p: RolePermission): string { p.id }
  function PermissionRoleOf(p: RolePermission): string { p.roleName }

  const DefaultRoleColor := "#6366f1"
  const DefaultColumnType := "text"
  const BuiltInRoles: seq<string> := ["admin", "collaborator", "orcamentista", "apontador"]

  /**
   * One row of the default column table, every one a system column; `isCalculated` is
   * `None` where the row leaves it out.
   */
  datatype DefaultColumn = DefaultColumn(columnKey: string, columnLabel: string, columnType: string,
                                         width: string, order: int, isSystem: bool, isCalculated: Option<bool>)

  const DefaultColumns: seq<DefaultColumn> := [
    DefaultColumn("descricao", "DESCRIÇÃO", "text", "200px", 1, true, None),
    DefaultColumn("qtd", "QTD", "number", "80px", 2, true, None),
    DefaultColumn("unidade", "UNIDADE", "text", "80px", 3, true, None),
    DefaultColumn("mat_uni_pr", "MAT UNI - PR (R$)", "currency", "120px", 4, true, None),
    DefaultColumn("desconto", "Desconto (%)", "percentage", "100px", 5, true, None),
    DefaultColumn("cc_mat_uni", "CC MAT UNI (R$)", "currency", "120px", 6, true, Some(true)),
    DefaultColumn("cc_mat_total", "CC MAT TOTAL (R$)", "currency", "130px", 7, true, Some(true)),
    DefaultColumn("cc_mo_uni", "CC MO UNI (R$)", "currency", "120px", 8, true, None),
    DefaultColumn("cc_mo_total", "CC MO TOTAL (R$)", "currency", "130px", 9, true, Some(true)),
    DefaultColumn("ipi", "IPI (R$)", "currency", "90px", 10, true, None),
    DefaultColumn("distribuidor", "DISTRIBUIDOR", "text", "120px", 11, true, None),
    DefaultColumn("vlr_total_estimado", "VLR. TOTAL ESTIMADO", "currency", "150px", 12, true, Some(true)),
    DefaultColumn("vlr_total_venda", "VLR. TOTAL VENDA", "currency", "150px", 13, true, Some(true))
  ]

  /** The default permissions of the field-annotator role 'apontador', by column key. */
  const ApontadorRules: seq<(string, Level)> := [
    ("descricao", View), ("qtd", View), ("unidade", Edit), ("mat_uni_pr", View),
    ("desconto", View), ("cc_mat_uni", View), ("cc_mat_total", View), ("cc_mo_uni", View),
    ("cc_mo_total", View), ("ipi", View), ("distribuidor", Hidden),
    ("vlr_total_estimado", View), ("vlr_total_venda", View)
  ]

  function DefaultColumnKeys(): seq<string>
  {
    Seqs.Map((d: DefaultColumn) => d.columnKey, DefaultColumns)
  }

  /**
   * The default tables agree: thirteen distinct system-column keys ordered 1 to 13, and the
   * 'apontador' table gives one rule per default column, in the same order.
   */
  lemma DefaultTablesConsistent()
    ensures |DefaultColumns| == 13
    ensures forall i :: 0 <= i < 13 ==> DefaultColumns[i].order == i + 1 && DefaultColumns[i].isSystem
    ensures Seqs.Distinct(DefaultColumnKeys())
    ensures Seqs.Map((r: (string, Level)) => r.0, ApontadorRules) == DefaultColumnKeys()
    ensures forall i :: 0 <= i < |ApontadorRules| ==> (ApontadorRules[i].1 == Edit <==> ApontadorRules[i].0 == "unidade")
    ensures forall i :: 0 <= i < |ApontadorRules| ==> (ApontadorRules[i].1 == Hidden <==> ApontadorRules[i].0 == "distribuidor")
  {
    DefaultColumnsNumbered();
    DefaultKeysDistinct();
    ApontadorRulesCoverDefaults();
    ApontadorRuleLevels();
  }

  lemma DefaultColumnsNumbered()
    ensures |DefaultColumns| == 13
    ensures forall i :: 0 <= i < 13 ==> DefaultColumns[i].order == i + 1
    ensures forall i :: 0 <= i < 13 ==> DefaultColumns[i].isSystem
  {
  }

  lemma DefaultKeysDistinct()
    ensures Seqs.Distinct(DefaultColumnKeys())
  {
  }

  lemma ApontadorRulesCoverDefaults()
    ensures Seqs.Map((r: (string, Level)) => r.0, ApontadorRules) == DefaultColumnKeys()
  {
  }

  lemma ApontadorRuleLevels()
    ensures forall i :: 0 <= i < |ApontadorRules| ==> (ApontadorRules[i].1 == Edit <==> ApontadorRules[i].0 == "unidade")
    ensures forall i :: 0 <= i < |ApontadorRules| ==> (ApontadorRules[i].1 == Hidden <==> ApontadorRules[i].0 == "distribuidor")
  {
  }

  /** The rule of the 'apontador' table for a default column: the only one naming it. */
  lemma ApontadorRuleFor(c: string) returns (i: nat)
    requires c in DefaultColumnKeys()
    ensures i < |ApontadorRules| && ApontadorRules[i].0 == c
    ensures forall j :: 0 <= j < |ApontadorRules| && ApontadorRules[j].0 == c ==> j == i
    ensures ApontadorRules[i].1 == Edit <==> c == "unidade"
    ensures ApontadorRules[i].1 == Hidden <==> c == "distribuidor"
  {
    var keys := DefaultColumnKeys();
    DefaultTablesConsistent();
    i := Seqs.IndexOf(keys, c);
    forall j | 0 <= j < |ApontadorRules| && ApontadorRules[j].0 == c
      ensures j == i
    {
      assert keys[j] == ApontadorRules[j].0;
    }
  }

  /**
   * For a non-admin on a project, a column named by exactly one stored rule is
   * editable exactly when that rule says 'edit' and visible unless it says 'none'.
   */
  lemma SingleRuleDecides(role: string, projectId: string, columns: seq<string>,
                          rules: seq<(string, Level)>, c: string, i: nat)
    requires projectId != "" && role != UserPermissions.Admin
    requires c in columns
    requires i < |rules| && rules[i].0 == c
    requires forall j :: 0 <= j < |rules| && rules[j].0 == c ==> j == i
    ensures var p := UserPermissions.Resolve(Some(role), Some(projectId), None, columns, rules);
      && (p.CanEditColumn(c) <==> rules[i].1 == Edit)
      && (p.CanViewColumn(c) <==> rules[i].1 != Hidden)
  {
    UserPermissions.NonAdminColumnLevel(Some(role), Some(projectId), None, columns, rules, c);
    if rules[i].1 != Edit {
      LastRestrictiveRuleWins(UserPermissions.AllEditable(columns), rules, c, i);
    }
  }

  /**
   * Through the permission hook, an 'apontador' on a project with the default columns
   * and rules may edit only 'unidade' and sees every column except 'distribuidor'.
   */
  lemma ApontadorDefaults(projectId: string, c: string)
    requires projectId != ""
    requires c in DefaultColumnKeys()
    ensures var p := UserPermissions.Resolve(Some("apontador"), Some(projectId), None,
                                             DefaultColumnKeys(), ApontadorRules);
      && (p.CanEditColumn(c) <==> c == "unidade")
      && (p.CanViewColumn(c) <==> c != "distribuidor")
  {
    var i := ApontadorRuleFor(c);
    SingleRuleDecides("apontador", projectId, DefaultColumnKeys(), ApontadorRules, c, i);
  }

  /**
   * When the `i`-th rule is a restriction on `k` and no later rule restricts `k`,
   * the restricted map holds that rule's level for `k`.
   */
  lemma {:induction false} LastRestrictiveRuleWins(m: map<string, Level>, rules: seq<(string, Level)>, k: string, i: nat)
    requires i < |rules| && rules[i].0 == k && UserPermissions.Restrictive(rules[i])
    requires forall j :: i < j < |rules| && rules[j].0 == k ==> !UserPermissions.Restrictive(rules[j])
    ensures var r := UserPermissions.ApplyRestrictions(m, rules); k in r && r[k] == rules[i].1
  {
    if i < |rules| - 1 {
      LastRestrictiveRuleWins(m, rules[..|rules| - 1], k, i);
    }
  }

  /** Index of the first row for (role, column), as `permissions.find` returns it. */
  function FindPermission(ps: seq<RolePermission>, roleName: string, columnKey: string): (r: Option<nat>)
    ensures r.Some? ==> r.value < |ps| && ps[r.value].roleName == roleName && ps[r.value].columnKey == columnKey
    ensures r.Some? ==> forall j :: 0 <= j < r.value ==> !(ps[j].roleName == roleName && ps[j].columnKey == columnKey)
    ensures r.None? ==> forall j :: 0 <= j < |ps| ==> !(ps[j].roleName == roleName && ps[j].columnKey == columnKey)
  {
    if ps == [] then None
    else if ps[0].roleName == roleName && ps[0].columnKey == columnKey then Some(0)
    else
      match FindPermission(ps[1..], roleName, columnKey)
      case None => None
      case Some(i) => Some(i + 1)
  }

  /** Rows that agree on role and column are searched alike. */
  lemma FindSameKeys(ps: seq<RolePermission>, qs: seq<RolePermission>, roleName: string, columnKey: string)
    requires |ps| == |qs|
    requires forall j :: 0 <= j < |ps| ==> ps[j].roleName == qs[j].roleName && ps[j].columnKey == qs[j].columnKey
    ensures FindPermission(ps, roleName, columnKey) == FindPermission(qs, roleName, columnKey)
  {
    var f, g := FindPermission(ps, roleName, columnKey), FindPermission(qs, roleName, columnKey);
    if f.Some? {
      assert g.Some?;
      if g.value < f.value { assert false; } else if f.value < g.value { assert false; }
    }
  }

  /** A row appended for a pair that had none is the one found. */
  lemma FindAppended(ps: seq<RolePermission>, x: RolePermission)
    requires FindPermission(ps, x.roleName, x.columnKey).None?
    ensures FindPermission(ps + [x], x.roleName, x.columnKey) == Some(|ps|)
  {
    var qs := ps + [x];
    var f := FindPermission(qs, x.roleName, x.columnKey);
    assert qs[|ps|] == x;
    assert f.Some?;
  }

  /** `getPermissionLevel`: 'edit' for admin, else the first stored row's level, else 'view'. */
  function PermissionLevel(ps: seq<RolePermission>, roleName: string, columnKey: string): (l: Level)
    ensures roleName == UserPermissions.Admin ==> l == Edit
    ensures roleName != UserPermissions.Admin && FindPermission(ps, roleName, columnKey).None? ==> l == View
    ensures roleName != UserPermissions.Admin ==>
      forall i :: 0 <= i < |ps| && ps[i].roleName == roleName && ps[i].columnKey == columnKey &&
                  (forall j :: 0 <= j < i ==> !(ps[j].roleName == roleName && ps[j].columnKey == columnKey)) ==>
        l == ps[i].level
  {
    if roleName == UserPermissions.Admin then Edit
    else
      match FindPermission(ps, roleName, columnKey)
      case Some(i) => ps[i].level
      case None => View
  }

  /** The upsert `updatePermission` applies locally once the database call succeeded. */
  function UpsertPermission(ps: seq<RolePermission>, roleName: string, columnKey: string, level: Level,
                            projectId: string, newId: string): seq<RolePermission>
  {
    match FindPermission(ps, roleName, columnKey)
    case Some(i) =>
      var id := ps[i].id;
      Seqs.Map((p: RolePermission) => if p.id == id then p.(level := level) else p, ps)
    case None => ps + [RolePermission(newId, roleName, projectId, columnKey, level)]
  }

  /**
   * After an upsert a non-admin lookup of the pair yields the new level; an existing
   * pair keeps the length, a new pair appends exactly one row.
   */
  lemma UpsertThenLookup(ps: seq<RolePermission>, roleName: string, columnKey: string, level: Level,
                         projectId: string, newId: string)
    requires roleName != UserPermissions.Admin
    ensures var ps' := UpsertPermission(ps, roleName, columnKey, level, projectId, newId);
      && PermissionLevel(ps', roleName, columnKey) == level
      && |ps'| == (if FindPermission(ps, roleName, columnKey).Some? then |ps| else |ps| + 1)
  {
    var ps' := UpsertPermission(ps, roleName, columnKey, level, projectId, newId);
    match FindPermission(ps, roleName, columnKey)
    case Some(i) =>
      FindSameKeys(ps, ps', roleName, columnKey);
    case None =>
      FindAppended(ps, RolePermission(newId, roleName, projectId, columnKey, level));
  }

  /** With unique row ids an upsert changes only the row of that pair: every other lookup is unchanged. */
  lemma UpsertLeavesOtherPairs(ps: seq<RolePermission>, roleName: string, columnKey: string, level: Level,
                               projectId: string, newId: string, r: string, c: string)
    requires Seqs.Distinct(Seqs.Map(PermissionIdOf, ps))
    requires (r, c) != (roleName, columnKey)
    ensures PermissionLevel(UpsertPermission(ps, roleName, columnKey, level, projectId, newId), r, c)
         == PermissionLevel(ps, r, c)
  {
    var ps' := UpsertPermission(ps, roleName, columnKey, level, projectId, newId);
    match FindPermission(ps, roleName, columnKey)
    case Some(i) =>
      forall j | 0 <= j < |ps| && j != i ensures ps'[j] == ps[j] {
        assert Seqs.Map(PermissionIdOf, ps)[j] != Seqs.Map(PermissionIdOf, ps)[i];
      }
      FindSameKeys(ps, ps', r, c);
      var f := FindPermission(ps, r, c);
      if f.Some? && f.value == i {
        assert false;
      }
    case None =>
      var x := RolePermission(newId, roleName, projectId, columnKey, level);
      var f := FindPermission(ps, r, c);
      var f' := FindPermission(ps + [x], r, c);
      if f.Some? {
        assert (ps + [x])[f.value] == ps[f.value];
        assert f'.Some?;
      }
  }

  /** `Math.max(...columns.map(c => c.column_order), 0)`. */
  function MaxOrder(cs: seq<ProjectColumn>): (m: int)
    ensures m >= 0
    ensures forall c :: c in cs ==> c.order <= m
    ensures m == 0 || exists c :: c in cs && c.order == m
  {
    if cs == [] then 0
    else
      var rest := MaxOrder(cs[1..]);
      assert forall c :: c in cs ==> c == cs[0] || c in cs[1..];
      if cs[0].order > rest then cs[0].order else rest
  }

  /**
   * The column `createColumn` inserts: the key slugged, no width, not a system column,
   * and ordered after every existing column.
   */
  function NewColumn(id: string, projectId: string, key: string, columnLabel: string, columnType: string,
                     columns: seq<ProjectColumn>): (c: ProjectColumn)
    ensures c.id == id && c.projectId == projectId && c.columnKey == Text.Slug(key)
    ensures c.columnLabel == columnLabel && c.columnType == columnType
    ensures c.width == None && !c.isSystem && c.isCalculated == None
    ensures forall other :: other in columns ==> other.order < c.order
    ensures c.order == 1 || exists other :: other in columns && other.order == c.order - 1
  {
    ProjectColumn(id, projectId, Text.Slug(key), columnLabel, columnType, None, MaxOrder(columns) + 1, false, None)
  }

  /** The 'view' rows `createColumn` sends for a new column: one per distinct role name. */
  function DefaultViewPermissions(projectId: string, customRoleNames: seq<string>, columnKey: string): (r: seq<PermissionInsert>)
    ensures Seqs.Distinct(Seqs.Map((p: PermissionInsert) => p.roleName, r))
    ensures forall name :: (exists p :: p in r && p.roleName == name) <==> name in BuiltInRoles || name in customRoleNames
    ensures forall p :: p in r ==> p.level == View && p.columnKey == columnKey && p.projectId == projectId
  {
    var names := Seqs.Dedupe(BuiltInRoles + customRoleNames);
    var r := Seqs.Map((name: string) => PermissionInsert(name, projectId, columnKey, View), names);
    assert Seqs.Map((p: PermissionInsert) => p.roleName, r) == names;
    forall name | name in BuiltInRoles || name in customRoleNames
      ensures exists p :: p in r && p.roleName == name
    {
      assert name in BuiltInRoles + customRoleNames;
      assert r[Seqs.IndexOf(names, name)].roleName == name;
    }
    forall p | p in r
      ensures p.roleName in BuiltInRoles + customRoleNames
    {
      var k :| 0 <= k < |r| && r[k] == p;
      assert p.roleName == names[k];
    }
    r
  }

  /** The admin screen's state. */
  class Manager {
    const projectId: string
    var roles: seq<CustomRole>
    var columns: seq<ProjectColumn>
    var permissions: seq<RolePermission>
    var selectedRole: string
    var newRoleName: string
    var newRoleDescription: string
    var newRoleColor: string
    var showCreateRole: bool
    var newColumnKey: string
    var newColumnLabel: string
    var newColumnType: string
    var showCreateColumn: bool

    constructor (projectId: string, roles: seq<CustomRole>, columns: seq<ProjectColumn>,
                 permissions: seq<RolePermission>)
      ensures this.projectId == projectId && this.roles == roles && this.columns == columns
      ensures this.permissions == permissions
      ensures selectedRole == (if |roles| > 0 then roles[0].name else "")
      ensures newRoleName == "" && newRoleDescription == "" && newRoleColor == DefaultRoleColor
      ensures newColumnKey == "" && newColumnLabel == "" && newColumnType == DefaultColumnType
      ensures !showCreateRole && !showCreateColumn
    {
      this.projectId := projectId;
      this.roles := roles;
      this.columns := columns;
      this.permissions := permissions;
      selectedRole := if |roles| > 0 then roles[0].name else "";
      newRoleName, newRoleDescription, newRoleColor := "", "", DefaultRoleColor;
      newColumnKey, newColumnLabel, newColumnType := "", "", DefaultColumnType;
      showCreateRole, showCreateColumn := false, false;
    }

    function GetPermissionLevel(roleName: string, columnKey: string): Level
      reads this
    {
      PermissionLevel(permissions, roleName, columnKey)
    }

    /** `updatePermission`; `dbOk` is the outcome of the update or insert, `newId` the inserted row's id. */
    method UpdatePermission(roleName: string, columnKey: string, level: Level, dbOk: bool, newId: string)
      modifies this`permissions
      ensures permissions == if dbOk then UpsertPermission(old(permissions), roleName, columnKey, level, projectId, newId)
                             else old(permissions)
      ensures dbOk && roleName != UserPermissions.Admin ==> GetPermissionLevel(roleName, columnKey) == level
    {
      if dbOk {
        if roleName != UserPermissions.Admin {
          UpsertThenLookup(permissions, roleName, columnKey, level, projectId, newId);
        }
        var existing := FindPermission(permissions, roleName, columnKey);
        if existing.Some? {
          var id := permissions[existing.value].id;
          permissions := Seqs.Map((p: RolePermission) => if p.id == id then p.(level := level) else p, permissions);
        } else {
          permissions := permissions + [RolePermission(newId, roleName, projectId, columnKey, level)];
        }
      }
    }

    /** `createRole`: a blank name, or a failed insert, changes nothing. */
    method CreateRole(dbOk: bool, newId: string)
      modifies this`roles, this`newRoleName, this`newRoleDescription, this`newRoleColor, this`showCreateRole
      ensures Text.IsBlank(old(newRoleName)) || !dbOk ==>
        roles == old(roles) && newRoleName == old(newRoleName) && newRoleDescription == old(newRoleDescription)
        && newRoleColor == old(newRoleColor) && showCreateRole == old(showCreateRole)
      ensures !Text.IsBlank(old(newRoleName)) && dbOk ==>
        roles == old(roles) + [CustomRole(newId, Text.Slug(old(newRoleName)), old(newRoleDescription), old(newRoleColor))]
        && newRoleName == "" && newRoleDescription == "" && newRoleColor == DefaultRoleColor && !showCreateRole
    {
      if Text.IsBlank(newRoleName) || !dbOk {
        return;
      }
      roles := roles + [CustomRole(newId, Text.Slug(newRoleName), newRoleDescription, newRoleColor)];
      newRoleName, newRoleDescription, newRoleColor := "", "", DefaultRoleColor;
      showCreateRole := false;
    }

    /**
     * `createColumn`: a blank key or label, or a failed insert, changes nothing; otherwise
     * the column is appended with the next order and the 'view' rows to insert are returned.
     */
    method CreateColumn(dbOk: bool, newId: string, customRoleNames: seq<string>)
      returns (toInsert: seq<PermissionInsert>)
      modifies this`columns, this`newColumnKey, this`newColumnLabel, this`newColumnType, this`showCreateColumn
      ensures Text.IsBlank(old(newColumnKey)) || Text.IsBlank(old(newColumnLabel)) || !dbOk ==>
        toInsert == [] && columns == old(columns) && newColumnKey == old(newColumnKey)
        && newColumnLabel == old(newColumnLabel) && newColumnType == old(newColumnType)
        && showCreateColumn == old(showCreateColumn)
      ensures !Text.IsBlank(old(newColumnKey)) && !Text.IsBlank(old(newColumnLabel)) && dbOk ==>
        && columns == old(columns) + [NewColumn(newId, projectId, old(newColumnKey), old(newColumnLabel),
                                                old(newColumnType), old(columns))]
        && toInsert == DefaultViewPermissions(projectId, customRoleNames, Text.Slug(old(newColumnKey)))
        && newColumnKey == "" && newColumnLabel == "" && newColumnType == DefaultColumnType && !showCreateColumn
    {
      toInsert := [];
      if Text.IsBlank(newColumnKey) || Text.IsBlank(newColumnLabel) || !dbOk {
        return;
      }
      var column := NewColumn(newId, projectId, newColumnKey, newColumnLabel, newColumnType, columns);
      toInsert := DefaultViewPermissions(projectId, customRoleNames, column.columnKey);
      columns := columns + [column];
      newColumnKey, newColumnLabel, newColumnType := "", "", DefaultColumnType;
      showCreateColumn := false;
    }

    /** `deleteColumn`: on success exactly the columns with that id are dropped, the rest in order. */
    method DeleteColumn(columnId: string, dbOk: bool)
      modifies this`columns
      ensures columns == if dbOk then Seqs.Reject(old(columns), ColumnIdOf, columnId) else old(columns)
    {
      if dbOk {
        columns := Seqs.Reject(columns, ColumnIdOf, columnId);
      }
    }

    /**
     * `deleteRole`: 'admin' is refused, as is an unconfirmed or failed deletion; otherwise
     * the role and all its permission rows go and the first remaining role is selected.
     */
    method DeleteRole(roleName: string, confirmed: bool, dbOk: bool)
      modifies this`roles, this`permissions, this`selectedRole
      ensures roleName == UserPermissions.Admin || !confirmed || !dbOk ==>
        roles == old(roles) && permissions == old(permissions) && selectedRole == old(selectedRole)
      ensures roleName != UserPermissions.Admin && confirmed && dbOk ==>
        && roles == Seqs.Reject(old(roles), RoleNameOf, roleName)
        && permissions == Seqs.Reject(old(permissions), PermissionRoleOf, roleName)
        && selectedRole == (if |roles| > 0 then roles[0].name else old(selectedRole))
      ensures roleName != UserPermissions.Admin && confirmed && dbOk ==>
        forall p :: p in permissions <==> p in old(permissions) && p.roleName != roleName
    {
      if roleName == UserPermissions.Admin || !confirmed || !dbOk {
        return;
      }
      roles := Seqs.Reject(roles, RoleNameOf, roleName);
      permissions := Seqs.Reject(permissions, PermissionRoleOf, roleName);
      if |roles| > 0 {
        selectedRole := roles[0].name;
      }
    }
  }

  /** `getPermissionColor`: the badge classes of each level, all different. */
  function PermissionColor(level: Level): string
  {
    match level
    case Hidden => "bg-gray-100 text-gray-600"
    case View => "bg-blue-100 text-blue-700"
    case Edit => "bg-green-100 text-green-700"
  }

  lemma PermissionColorsDistinct(a: Level, b: Level)
    requires a != b
    ensures PermissionColor(a) != PermissionColor(b)
  {
  }
}
