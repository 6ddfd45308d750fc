/** The database enum `permission_level`. */
module Levels {
  /** 'none' (the column is hidden), 'view' or 'edit'. */
  datatype Level = Hidden | View | Edit
}

/**
 * The `useUserPermissions` hook: resolves a user's profile role and project role,
 * the per-column permission map of one project, and the derived capability flags.
 */
module UserPermissions {
  import opened Wrappers
  import opened Levels
  import Seqs

  const Collaborator := "collaborator"
  const Admin := "admin"

  /** The hook's `permissions` state; `projectRole` is `None` until a load completes. */
  datatype Permissions = Permissions(
    role: string,
    projectRole: Option<string>,
    canEdit: bool,
    canDelete: bool,
    canCreate: bool,
    columnPermissions: map<string, Level>)
  {
    /** An unmapped column is visible; a mapped one is visible at 'view' or 'edit'. */
    function CanViewColumn(key: string): (b: bool)
      ensures b <==> key !in columnPermissions || columnPermissions[key] != Hidden
    {
      key !in columnPermissions || columnPermissions[key] == View || columnPermissions[key] == Edit
    }

    /** An unmapped column is editable for project collaborators and profile admins only. */
    function CanEditColumn(key: string): (b: bool)
      ensures key in columnPermissions ==> (b <==> columnPermissions[key] == Edit)
      ensures key !in columnPermissions ==> (b <==> projectRole == Some(Collaborator) || role == Admin)
    {
      if key !in columnPermissions then projectRole == Some(Collaborator) || role == Admin
      else columnPermissions[key] == Edit
    }
  }

  const InitialPermissions := Permissions("", None, false, false, false, map[])

  /** `profile?.role || 'collaborator'`. */
  function UserRole(profileRole: Option<string>): (r: string)
    ensures r != ""
    ensures profileRole.Some? && profileRole.value != "" ==> r == profileRole.value
  {
    if profileRole.Some? && profileRole.value != "" then profileRole.value else Collaborator
  }

  /** `if (projectId)`: a present, non-empty project id. */
  predicate HasProject(projectId: Option<string>)
  {
    projectId.Some? && projectId.value != ""
  }

  /** The project assignment's role when there is one, else the profile role. */
  function ProjectRole(userRole: string, projectId: Option<string>, assignment: Option<string>): string
  {
    if HasProject(projectId) && assignment.Some? then assignment.value else userRole
  }

  predicate IsAdmin(userRole: string, projectRole: string)
  {
    userRole == Admin || projectRole == Admin
  }

  /** Every project column at 'edit', as the first `forEach` over `allColumns` leaves it. */
  function AllEditable(columns: seq<string>): (m: map<string, Level>)
    ensures m.Keys == set c | c in columns
    ensures forall c :: c in m ==> m[c] == Edit
  {
    if columns == [] then map[]
    else AllEditable(columns[..|columns| - 1])[columns[|columns| - 1] := Edit]
  }

  predicate Restrictive(rule: (string, Level))
  {
    rule.1 != Edit
  }

  /** The stored rules applied in order, each restrictive one overwriting its column. */
  function ApplyRestrictions(m: map<string, Level>, rules: seq<(string, Level)>): map<string, Level>
  {
    if rules == [] then m
    else
      var r := ApplyRestrictions(m, rules[..|rules| - 1]);
      var last := rules[|rules| - 1];
      if Restrictive(last) then r[last.0 := last.1] else r
  }

  /** The column-permission map the hook builds. */
  function ColumnPermissions(admin: bool, projectId: Option<string>, columns: seq<string>,
                             rules: seq<(string, Level)>): map<string, Level>
  {
    if !HasProject(projectId) then map[]
    else if admin then AllEditable(columns)
    else ApplyRestrictions(AllEditable(columns), rules)
  }

  /** The permissions a completed load sets. */
  function Resolve(profileRole: Option<string>, projectId: Option<string>, assignment: Option<string>,
                   columns: seq<string>, rules: seq<(string, Level)>): Permissions
  {
    var userRole := UserRole(profileRole);
    var projectRole := ProjectRole(userRole, projectId, assignment);
    var admin := IsAdmin(userRole, projectRole);
    var cp := ColumnPermissions(admin, projectId, columns, rules);
    Permissions(
      userRole,
      Some(projectRole),
      admin || projectRole == Collaborator || (exists k :: k in cp && cp[k] == Edit),
      admin,
      admin || projectRole == Collaborator,
      cp)
  }

  /**
   * Stored rules only lower: a column ends at 'edit' exactly when it started at 'edit'
   * and no 'none'/'view' rule names it; a column gains a key only from such a rule.
   */
  lemma {:induction false} RestrictionsOnlyLower(m: map<string, Level>, rules: seq<(string, Level)>, k: string)
    ensures var r := ApplyRestrictions(m, rules);
      && (k in r <==> k in m || (exists i :: 0 <= i < |rules| && rules[i].0 == k && Restrictive(rules[i])))
      && (k in r && r[k] == Edit <==>
            k in m && m[k] == Edit && forall i :: 0 <= i < |rules| && rules[i].0 == k ==> !Restrictive(rules[i]))
  {
    if rules != [] {
      var init := rules[..|rules| - 1];
      RestrictionsOnlyLower(m, init, k);
      assert forall i :: 0 <= i < |init| ==> init[i] == rules[i];
    }
  }

  /** Stored 'edit' rules change nothing: applying only the restrictive rules gives the same map. */
  lemma {:induction false} EditRulesIgnored(m: map<string, Level>, rules: seq<(string, Level)>)
    ensures ApplyRestrictions(m, rules) == ApplyRestrictions(m, Seqs.Filter(Restrictive, rules))
  {
    if rules != [] {
      var init := rules[..|rules| - 1];
      var last := rules[|rules| - 1];
      EditRulesIgnored(m, init);
      assert rules == init + [last];
      Seqs.FilterAppend(Restrictive, init, [last]);
      Seqs.FilterSingle(Restrictive, last);
      var kept := Seqs.Filter(Restrictive, init);
      if Restrictive(last) {
        ApplySnoc(m, kept, last);
      } else {
        assert Seqs.Filter(Restrictive, rules) == kept;
      }
    }
  }

  lemma ApplySnoc(m: map<string, Level>, rules: seq<(string, Level)>, rule: (string, Level))
    ensures ApplyRestrictions(m, rules + [rule])
         == if Restrictive(rule) then ApplyRestrictions(m, rules)[rule.0 := rule.1] else ApplyRestrictions(m, rules)
  {
    assert (rules + [rule])[..|rules|] == rules;
  }

  /** Without a project id the column map is empty, whoever the user is. */
  lemma NoProjectNoColumns(profileRole: Option<string>, assignment: Option<string>,
                           columns: seq<string>, rules: seq<(string, Level)>)
    ensures Resolve(profileRole, None, assignment, columns, rules).columnPermissions == map[]
    ensures Resolve(profileRole, None, assignment, columns, rules).projectRole == Some(UserRole(profileRole))
  {
  }

  /** An admin (by profile or by project) may edit, and therefore view, every project column. */
  lemma AdminEditsEveryColumn(profileRole: Option<string>, projectId: Option<string>, assignment: Option<string>,
                              columns: seq<string>, rules: seq<(string, Level)>, c: string)
    requires HasProject(projectId)
    requires UserRole(profileRole) == Admin || (assignment.Some? && assignment.value == Admin)
    requires c in columns
    ensures var p := Resolve(profileRole, projectId, assignment, columns, rules);
      p.columnPermissions[c] == Edit && p.CanEditColumn(c) && p.CanViewColumn(c) && p.canDelete
  {
  }

  /**
   * For a non-admin with a project, a project column is editable exactly when no
   * 'none'/'view' rule for the project role names it, whatever 'edit' rules say.
   */
  lemma NonAdminColumnLevel(profileRole: Option<string>, projectId: Option<string>, assignment: Option<string>,
                            columns: seq<string>, rules: seq<(string, Level)>, c: string)
    requires HasProject(projectId)
    requires !IsAdmin(UserRole(profileRole), ProjectRole(UserRole(profileRole), projectId, assignment))
    requires c in columns
    ensures var p := Resolve(profileRole, projectId, assignment, columns, rules);
      p.CanEditColumn(c) <==> forall i :: 0 <= i < |rules| && rules[i].0 == c ==> rules[i].1 == Edit
  {
    RestrictionsOnlyLower(AllEditable(columns), rules, c);
  }

  /**
   * The capability flags: delete only for admins, create for admins and project
   * collaborators, and edit for those or whenever some project column is left at 'edit'.
   */
  lemma FlagsFollowRoles(profileRole: Option<string>, projectId: Option<string>, assignment: Option<string>,
                         columns: seq<string>, rules: seq<(string, Level)>)
    ensures var p := Resolve(profileRole, projectId, assignment, columns, rules);
      var pr := ProjectRole(UserRole(profileRole), projectId, assignment);
      var admin := IsAdmin(UserRole(profileRole), pr);
      && (p.canDelete <==> admin)
      && (p.canCreate <==> admin || pr == Collaborator)
      && (p.canEdit <==> admin || pr == Collaborator || exists c :: c in columns && p.CanEditColumn(c))
  {
    var p := Resolve(profileRole, projectId, assignment, columns, rules);
    var pr := ProjectRole(UserRole(profileRole), projectId, assignment);
    var admin := IsAdmin(UserRole(profileRole), pr);
    var cp := p.columnPermissions;
    if !admin && pr != Collaborator {
      if p.canEdit {
        var k :| k in cp && cp[k] == Edit;
        RestrictionsOnlyLower(AllEditable(columns), rules, k);
        assert k in columns && p.CanEditColumn(k);
      }
      if c :| c in columns && p.CanEditColumn(c) {
        assert c in cp && cp[c] == Edit;
      }
    }
  }

  /**
   * A key is left out of the map when there is no project, or when it is not a project
   * column and (for a non-admin) no 'none'/'view' rule names it. Such a key is visible,
   * and editable exactly for a project collaborator or a profile admin.
   */
  lemma UnmappedColumn(profileRole: Option<string>, projectId: Option<string>, assignment: Option<string>,
                       columns: seq<string>, rules: seq<(string, Level)>, key: string)
    ensures var p := Resolve(profileRole, projectId, assignment, columns, rules);
      var pr := ProjectRole(UserRole(profileRole), projectId, assignment);
      && (key !in p.columnPermissions <==>
            || !HasProject(projectId)
            || (key !in columns &&
                (IsAdmin(UserRole(profileRole), pr) ||
                 forall i :: 0 <= i < |rules| && rules[i].0 == key ==> !Restrictive(rules[i]))))
      && (key !in p.columnPermissions ==>
            p.CanViewColumn(key) && (p.CanEditColumn(key) <==> pr == Collaborator || UserRole(profileRole) == Admin))
  {
    RestrictionsOnlyLower(AllEditable(columns), rules, key);
  }

  /** Whatever the map holds, an editable column is a viewable one. */
  lemma EditImpliesView(p: Permissions, key: string)
    requires p.CanEditColumn(key)
    ensures p.CanViewColumn(key)
  {
  }

  /** The hook instance: its `permissions` and `loading` state for one optional project id. */
  class PermissionsHook {
    const projectId: Option<string>
    var permissions: Permissions
    var loading: bool

    constructor (projectId: Option<string>)
      ensures this.projectId == projectId
      ensures permissions == InitialPermissions && loading
    {
      this.projectId := projectId;
      permissions := InitialPermissions;
      loading := true;
    }

    /**
     * `loadUserPermissions`: with no signed-in user the permissions stay as they were;
     * otherwise they become `Resolve(...)` of the rows the queries returned (a failed
     * query returns no rows). Loading ends either way.
     */
    method LoadUserPermissions(signedIn: bool, profileRole: Option<string>, assignment: Option<string>,
                               columns: seq<string>, rules: seq<(string, Level)>)
      modifies this
      ensures !loading
      ensures signedIn ==> permissions == Resolve(profileRole, projectId, assignment, columns, rules)
      ensures !signedIn ==> permissions == old(permissions)
    {
      if !signedIn {
        loading := false;
        return;
      }
      var userRole := UserRole(profileRole);
      var projectRole := userRole;
      if HasProject(projectId) && assignment.Some? {
        projectRole := assignment.value;
      }
      var admin := userRole == Admin || projectRole == Admin;
      var cp: map<string, Level> := map[];
      if HasProject(projectId) {
        var i := 0;
        while i < |columns|
          invariant 0 <= i <= |columns|
          invariant cp == AllEditable(columns[..i])
        {
          Seqs.TakeSnoc(columns, i);
          cp := cp[columns[i] := Edit];
          i := i + 1;
        }
        Seqs.TakeAll(columns, i);
        if !admin {
          var j := 0;
          while j < |rules|
            invariant 0 <= j <= |rules|
            invariant cp == ApplyRestrictions(AllEditable(columns), rules[..j])
          {
            Seqs.TakeSnoc(rules, j);
            if rules[j].1 == Hidden || rules[j].1 == View {
              cp := cp[rules[j].0 := rules[j].1];
            }
            j := j + 1;
          }
          Seqs.TakeAll(rules, j);
        }
      }
      var canEdit := admin || projectRole == Collaborator || (exists k :: k in cp && cp[k] == Edit);
      permissions := Permissions(userRole, Some(projectRole), canEdit, admin,
                                 admin || projectRole == Collaborator, cp);
      loading := false;
    }
  }
}
