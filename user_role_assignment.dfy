/**
 * The `UserRoleAssignment` admin panel: which users hold which custom role in one
 * project, assigning and re-assigning a user by e-mail, removing an assignment, and the
 * per-role grouping and counts the panel displays.
 */
module UserRoleAssignment {
  import opened Wrappers
  import Seqs
  import Text
  import RolePermissionManager

  type CustomRole = RolePermissionManager.CustomRole

  /** A `user_project_roles` row, with the e-mail the panel attaches to it. */
  datatype UserProjectRole = UserProjectRole(id: string, userId: string, roleName: string, userEmail: string)

  function AssignmentIdOf(ur: UserProjectRole): string { ur.id }
  function RoleOf(ur: UserProjectRole): string { ur.roleName }

  const EmailNotFound := "Email não encontrado"
  const EmailDomain := "@exemplo.com"
  const Admin := "admin"
  const Apontador := "apontador"

  /** `id.slice(-4)`: the last four characters, or the whole of a shorter id. */
  function LastFour(id: string): (r: string)
    ensures |r| == if |id| < 4 then |id| else 4
    ensures Text.EndsWith(id, r)
  {
    if |id| < 4 then id else id[|id| - 4..]
  }

  /** The stand-in address the panel shows for a user that has a profile. */
  function SimulatedEmail(userId: string): (e: string)
    ensures Text.EndsWith(e, EmailDomain) && e != EmailNotFound
  {
    var e := "user" + LastFour(userId) + EmailDomain;
    assert e[|e| - |EmailDomain|..] == EmailDomain;
    assert e[0] == 'u';
    e
  }

  /** The `userEmails` object that `loadData` fills, one entry per returned profile. */
  function EmailDirectory(profileIds: seq<string>): (d: map<string, string>)
    ensures d.Keys == set p | p in profileIds
    ensures forall p :: p in d ==> d[p] == SimulatedEmail(p)
  {
    if profileIds == [] then map[]
    else
      var last := profileIds[|profileIds| - 1];
      EmailDirectory(profileIds[..|profileIds| - 1])[last := SimulatedEmail(last)]
  }

  lemma EmailDirectoryStep(profileIds: seq<string>, i: nat)
    requires i < |profileIds|
    ensures EmailDirectory(profileIds[..i + 1]) == EmailDirectory(profileIds[..i])[profileIds[i] := SimulatedEmail(profileIds[i])]
  {
    Seqs.TakeSnoc(profileIds, i);
  }

  lemma DirectoryOfAll(profileIds: seq<string>, i: nat)
    requires i == |profileIds|
    ensures EmailDirectory(profileIds[..i]) == EmailDirectory(profileIds)
  {
    Seqs.TakeAll(profileIds, i);
  }

  /** The `profiles?.forEach` loop of `loadData` that fills `userEmails`. */
  method BuildDirectory(profileIds: seq<string>) returns (directory: map<string, string>)
    ensures directory == EmailDirectory(profileIds)
  {
    directory := map[];
    var i := 0;
    while i < |profileIds|
      invariant 0 <= i <= |profileIds|
      invariant directory == EmailDirectory(profileIds[..i])
    {
      EmailDirectoryStep(profileIds, i);
      directory := directory[profileIds[i] := SimulatedEmail(profileIds[i])];
      i := i + 1;
    }
    DirectoryOfAll(profileIds, i);
  }

  /** `userEmails[ur.user_id] || 'Email não encontrado'`. */
  function EmailFor(directory: map<string, string>, userId: string): string
  {
    if userId in directory && directory[userId] != "" then directory[userId] else EmailNotFound
  }

  /**
   * The enriched rows: the same assignments in the same order, each carrying the
   * simulated address when its user has a profile and the not-found text otherwise.
   */
  function Enriched(rows: seq<UserProjectRole>, profileIds: seq<string>): (r: seq<UserProjectRole>)
    ensures |r| == |rows|
    ensures forall i :: 0 <= i < |rows| ==>
      && r[i].id == rows[i].id && r[i].userId == rows[i].userId && r[i].roleName == rows[i].roleName
      && r[i].userEmail == if rows[i].userId in profileIds then SimulatedEmail(rows[i].userId) else EmailNotFound
  {
    var d := EmailDirectory(profileIds);
    Seqs.Map((ur: UserProjectRole) => ur.(userEmail := EmailFor(d, ur.userId)), rows)
  }

  /** Index of the first row with exactly this e-mail, as `userRoles.find` returns it. */
  function FindByEmail(rows: seq<UserProjectRole>, email: string): (r: Option<nat>)
    ensures r.Some? ==> r.value < |rows| && rows[r.value].userEmail == email
    ensures r.Some? ==> forall j :: 0 <= j < r.value ==> rows[j].userEmail != email
    ensures r.None? ==> forall j :: 0 <= j < |rows| ==> rows[j].userEmail != email
  {
    if rows == [] then None
    else if rows[0].userEmail == email then Some(0)
    else
      match FindByEmail(rows[1..], email)
      case None => None
      case Some(i) => Some(i + 1)
  }

  /** The role the panel shows for an e-mail: that of its first row. */
  function RoleOfEmail(rows: seq<UserProjectRole>, email: string): Option<string>
  {
    match FindByEmail(rows, email)
    case Some(i) => Some(rows[i].roleName)
    case None => None
  }

  /** Rows that agree on e-mail position by position are searched alike. */
  lemma FindSameEmails(rows: seq<UserProjectRole>, rows': seq<UserProjectRole>, email: string)
    requires |rows| == |rows'|
    requires forall j :: 0 <= j < |rows| ==> rows[j].userEmail == rows'[j].userEmail
    ensures FindByEmail(rows, email) == FindByEmail(rows', email)
  {
    var f, g := FindByEmail(rows, email), FindByEmail(rows', email);
    if f.Some? {
      assert g.Some?;
      if g.value < f.value { assert false; } else if f.value < g.value { assert false; }
    }
  }

  /**
   * What a successful `assignUserToRole` does to the list: the row found by e-mail gets
   * the role (every row sharing its id, as the `map` by id does), or a new row is appended.
   */
  function AssignRole(rows: seq<UserProjectRole>, email: string, roleName: string,
                      newId: string, newUserId: string): seq<UserProjectRole>
  {
    match FindByEmail(rows, email)
    case Some(i) =>
      var id := rows[i].id;
      Seqs.Map((ur: UserProjectRole) => if ur.id == id then ur.(roleName := roleName) else ur, rows)
    case None => rows + [UserProjectRole(newId, newUserId, roleName, email)]
  }

  /**
   * After an assignment the e-mail shows the chosen role; an e-mail already listed keeps
   * the list's length, a new one adds exactly one row.
   */
  lemma AssignThenLookup(rows: seq<UserProjectRole>, email: string, roleName: string,
                         newId: string, newUserId: string)
    ensures var rows' := AssignRole(rows, email, roleName, newId, newUserId);
      && RoleOfEmail(rows', email) == Some(roleName)
      && |rows'| == (if FindByEmail(rows, email).Some? then |rows| else |rows| + 1)
  {
    var rows' := AssignRole(rows, email, roleName, newId, newUserId);
    match FindByEmail(rows, email)
    case Some(i) =>
      FindSameEmails(rows, rows', email);
    case None =>
      var x := UserProjectRole(newId, newUserId, roleName, email);
      assert rows'[|rows|] == x;
      assert FindByEmail(rows', email).Some?;
  }

  /**
   * With unique row ids, re-assigning a listed e-mail changes only the role of the row
   * found for it; a new e-mail appends one row carrying that e-mail and role.
   */
  lemma AssignChangesOneRow(rows: seq<UserProjectRole>, email: string, roleName: string,
                            newId: string, newUserId: string)
    requires Seqs.Distinct(Seqs.Map(AssignmentIdOf, rows))
    ensures var rows' := AssignRole(rows, email, roleName, newId, newUserId);
      match FindByEmail(rows, email)
      case Some(i) =>
        |rows'| == |rows| && forall j :: 0 <= j < |rows| ==> rows'[j] == if j == i then rows[i].(roleName := roleName) else rows[j]
      case None =>
        rows'[..|rows|] == rows && rows'[|rows|].userEmail == email && rows'[|rows|].roleName == roleName
  {
    match FindByEmail(rows, email)
    case Some(i) =>
      forall j | 0 <= j < |rows| && j != i ensures rows[j].id != rows[i].id {
        assert Seqs.Map(AssignmentIdOf, rows)[j] != Seqs.Map(AssignmentIdOf, rows)[i];
      }
    case None =>
  }

  /** With unique row ids, assigning one e-mail leaves the role shown for every other e-mail alone. */
  lemma AssignLeavesOtherEmails(rows: seq<UserProjectRole>, email: string, roleName: string,
                                newId: string, newUserId: string, other: string)
    requires Seqs.Distinct(Seqs.Map(AssignmentIdOf, rows))
    requires other != email
    ensures RoleOfEmail(AssignRole(rows, email, roleName, newId, newUserId), other) == RoleOfEmail(rows, other)
  {
    var rows' := AssignRole(rows, email, roleName, newId, newUserId);
    match FindByEmail(rows, email)
    case Some(i) =>
      forall j | 0 <= j < |rows| && j != i ensures rows'[j] == rows[j] {
        assert Seqs.Map(AssignmentIdOf, rows)[j] != Seqs.Map(AssignmentIdOf, rows)[i];
      }
      FindSameEmails(rows, rows', other);
      var f := FindByEmail(rows, other);
      if f.Some? && f.value == i {
        assert false;
      }
    case None =>
      var x := UserProjectRole(newId, newUserId, roleName, email);
      var f := FindByEmail(rows, other);
      var f' := FindByEmail(rows + [x], other);
      if f.Some? {
        assert (rows + [x])[f.value] == rows[f.value];
        assert f'.Some?;
      }
  }

  /** The first role with this name, as `roles.find` returns it. */
  function FindRole(roles: seq<CustomRole>, roleName: string): (r: Option<CustomRole>)
    ensures r.Some? ==> r.value in roles && r.value.name == roleName
    ensures r.Some? ==> exists i :: 0 <= i < |roles| && roles[i] == r.value &&
                          forall j :: 0 <= j < i ==> roles[j].name != roleName
    ensures r.None? ==> forall x :: x in roles ==> x.name != roleName
  {
    if roles == [] then None
    else if roles[0].name == roleName then Some(roles[0])
    else FindRole(roles[1..], roleName)
  }

  /** `getRoleColor`: the role's colour when it has one, else the default indigo. */
  function RoleColor(roles: seq<CustomRole>, roleName: string): (c: string)
    ensures c != ""
    ensures c == RolePermissionManager.DefaultRoleColor
         || exists x :: x in roles && x.name == roleName && x.color == c
  {
    match FindRole(roles, roleName)
    case Some(x) => if x.color != "" then x.color else RolePermissionManager.DefaultRoleColor
    case None => RolePermissionManager.DefaultRoleColor
  }

  /** When role names are unique, every role with a colour is drawn in that colour. */
  lemma {:induction false} RoleColorOfListedRole(roles: seq<CustomRole>, x: CustomRole)
    requires Seqs.Distinct(Seqs.Map(RolePermissionManager.RoleNameOf, roles))
    requires x in roles && x.color != ""
    ensures RoleColor(roles, x.name) == x.color
  {
    if roles[0] != x {
      assert Seqs.Map(RolePermissionManager.RoleNameOf, roles[1..]) == Seqs.Map(RolePermissionManager.RoleNameOf, roles)[1..];
      var k :| 0 < k < |roles| && roles[k] == x;
      assert Seqs.Map(RolePermissionManager.RoleNameOf, roles)[0] != Seqs.Map(RolePermissionManager.RoleNameOf, roles)[k];
      RoleColorOfListedRole(roles[1..], x);
    }
  }

  /** The `roleGroups` object: role names in order of first appearance, and each role's rows. */
  datatype Groups = Groups(order: seq<string>, members: map<string, seq<UserProjectRole>>)

  /** `getRolesByName`, as its `forEach` builds the object row by row. */
  function GroupByRole(rows: seq<UserProjectRole>): Groups
  {
    if rows == [] then Groups([], map[])
    else
      var g := GroupByRole(rows[..|rows| - 1]);
      var x := rows[|rows| - 1];
      if x.roleName in g.members then Groups(g.order, g.members[x.roleName := g.members[x.roleName] + [x]])
      else Groups(g.order + [x.roleName], g.members[x.roleName := [x]])
  }

  /**
   * The grouping is a partition by role: every role name appears once among the keys,
   * exactly the names some row carries, and each key's rows are the rows with that role,
   * in list order.
   */
  lemma {:induction false} GroupsAreSelections(rows: seq<UserProjectRole>)
    ensures var g := GroupByRole(rows);
      && Seqs.Distinct(g.order)
      && (forall k :: k in g.members <==> k in g.order)
      && (forall k :: k in g.order <==> exists x :: x in rows && x.roleName == k)
      && (forall k :: k in g.members ==> g.members[k] == Seqs.Select(rows, RoleOf, k))
  {
    if rows != [] {
      var init := rows[..|rows| - 1];
      var x := rows[|rows| - 1];
      assert rows == init + [x];
      GroupsAreSelections(init);
      var g0 := GroupByRole(init);
      var g := GroupByRole(rows);
      forall k | k in g.members
        ensures g.members[k] == Seqs.Select(rows, RoleOf, k)
      {
        Seqs.SelectSnoc(init, x, RoleOf, k);
        if k != x.roleName {
          assert g.members[k] == g0.members[k];
        } else if k in g0.members {
          assert g.members[k] == g0.members[k] + [x];
        } else {
          Seqs.SelectNone(init, RoleOf, k);
          assert g.members[k] == [x];
        }
      }
      forall k | k in g.order
        ensures exists y :: y in rows && y.roleName == k
      {
        if k != x.roleName {
          assert k in g0.order;
          var y :| y in init && y.roleName == k;
          assert y in rows;
        }
      }
    }
  }

  /** The panel's statistics: total users, active roles, administrators and apontadores. */
  datatype Statistics = Statistics(total: nat, activeRoles: nat, admins: nat, apontadores: nat)

  /** `roleGroups[name]?.length || 0`. */
  function GroupSize(g: Groups, roleName: string): nat
  {
    if roleName in g.members then |g.members[roleName]| else 0
  }

  function StatisticsOf(rows: seq<UserProjectRole>): Statistics
  {
    var g := GroupByRole(rows);
    Statistics(|rows|, |g.order|, GroupSize(g, Admin), GroupSize(g, Apontador))
  }

  /**
   * The counts agree with each other: the admin and apontador figures are the numbers of
   * rows with those roles, the active roles are the distinct role names, and the group
   * sizes add up to the total.
   */
  lemma StatisticsConsistent(rows: seq<UserProjectRole>)
    ensures var s := StatisticsOf(rows);
      var g := GroupByRole(rows);
      && s.admins == |Seqs.Select(rows, RoleOf, Admin)|
      && s.apontadores == |Seqs.Select(rows, RoleOf, Apontador)|
      && s.activeRoles == |Seqs.Dedupe(Seqs.Map(RoleOf, rows))|
      && Seqs.SumOfGroupSizes(rows, RoleOf, g.order) == s.total
  {
    GroupSizeIsSelection(rows, Admin);
    GroupSizeIsSelection(rows, Apontador);
    ActiveRolesAreDistinctNames(rows);
    GroupSizesAddUp(rows);
  }

  /** A role's figure is the number of rows with that role, 0 for a role nobody holds. */
  lemma GroupSizeIsSelection(rows: seq<UserProjectRole>, k: string)
    ensures GroupSize(GroupByRole(rows), k) == |Seqs.Select(rows, RoleOf, k)|
  {
    var g := GroupByRole(rows);
    GroupsAreSelections(rows);
    if k !in g.members {
      Seqs.SelectNone(rows, RoleOf, k);
    }
  }

  lemma GroupSizesAddUp(rows: seq<UserProjectRole>)
    ensures Seqs.SumOfGroupSizes(rows, RoleOf, GroupByRole(rows).order) == |rows|
  {
    var g := GroupByRole(rows);
    GroupsAreSelections(rows);
    forall x | x in rows ensures RoleOf(x) in g.order {
      assert x.roleName in g.order;
    }
    Seqs.GroupSizesPartition(rows, RoleOf, g.order);
  }

  lemma ActiveRolesAreDistinctNames(rows: seq<UserProjectRole>)
    ensures |GroupByRole(rows).order| == |Seqs.Dedupe(Seqs.Map(RoleOf, rows))|
  {
    var g := GroupByRole(rows);
    GroupsAreSelections(rows);
    var names := Seqs.Map(RoleOf, rows);
    forall k ensures k in g.order <==> k in Seqs.Dedupe(names) {
      if k in names {
        var i :| 0 <= i < |names| && names[i] == k;
        assert rows[i] in rows;
      }
      if k in g.order {
        var y :| y in rows && y.roleName == k;
        var i :| 0 <= i < |rows| && rows[i] == y;
        assert names[i] == k;
      }
    }
    DistinctSameElements(g.order, Seqs.Dedupe(names));
  }

  /** A duplicate-free sequence has as many elements as its set. */
  lemma {:induction false} DistinctCard(a: seq<string>)
    requires Seqs.Distinct(a)
    ensures |set k | k in a| == |a|
  {
    if a != [] {
      var init := a[..|a| - 1];
      DistinctCard(init);
      assert (set k | k in a) == (set k | k in init) + {a[|a| - 1]};
      assert a[|a| - 1] !in init;
    }
  }

  /** Two duplicate-free sequences with the same elements have the same length. */
  lemma DistinctSameElements(a: seq<string>, b: seq<string>)
    requires Seqs.Distinct(a) && Seqs.Distinct(b)
    requires forall k :: k in a <==> k in b
    ensures |a| == |b|
  {
    DistinctCard(a);
    DistinctCard(b);
    assert (set k | k in a) == (set k | k in b);
  }

  /** The panel's state for one project. */
  class Panel {
    const projectId: string
    var roles: seq<CustomRole>
    var userRoles: seq<UserProjectRole>
    var loading: bool
    var showAssignUser: bool
    var userEmail: string
    var selectedRole: string
    var isAssigning: bool

    constructor (projectId: string)
      ensures this.projectId == projectId
      ensures roles == [] && userRoles == [] && loading && !showAssignUser
      ensures userEmail == "" && selectedRole == "" && !isAssigning
    {
      this.projectId := projectId;
      roles, userRoles := [], [];
      loading, showAssignUser := true, false;
      userEmail, selectedRole := "", "";
      isAssigning := false;
    }

    /**
     * `loadData`: `roleRows` and `assignmentRows` are the two queries' rows (`None` when a
     * query failed), `profileIds` the profiles found for the assigned users. On any
     * failure the lists stay as they were; loading ends either way.
     */
    method LoadData(roleRows: Option<seq<CustomRole>>, assignmentRows: Option<seq<UserProjectRole>>,
                    profileIds: seq<string>)
      modifies this`roles, this`userRoles, this`loading
      ensures !loading
      ensures roleRows.Some? && assignmentRows.Some? ==>
        roles == roleRows.value && userRoles == Enriched(assignmentRows.value, profileIds)
      ensures roleRows.None? || assignmentRows.None? ==> roles == old(roles) && userRoles == old(userRoles)
    {
      if roleRows.None? || assignmentRows.None? {
        loading := false;
        return;
      }
      var directory := BuildDirectory(profileIds);
      roles := roleRows.value;
      userRoles := Seqs.Map((ur: UserProjectRole) => ur.(userEmail := EmailFor(directory, ur.userId)),
                            assignmentRows.value);
      loading := false;
    }

    /**
     * `assignUserToRole`: a blank e-mail or no role changes nothing. Otherwise, when the
     * database write succeeded (`dbOk`), the e-mail's row gets the role or a new row
     * (`newId`, for the simulated `newUserId`) is appended, and the form is cleared and
     * closed; a failed write leaves everything but the busy flag.
     */
    method AssignUserToRole(newUserId: string, newId: string, dbOk: bool)
      modifies this`userRoles, this`userEmail, this`selectedRole, this`showAssignUser, this`isAssigning
      ensures Text.IsBlank(old(userEmail)) || old(selectedRole) == "" ==>
        userRoles == old(userRoles) && userEmail == old(userEmail) && selectedRole == old(selectedRole)
        && showAssignUser == old(showAssignUser) && isAssigning == old(isAssigning)
      ensures !Text.IsBlank(old(userEmail)) && old(selectedRole) != "" ==> !isAssigning
      ensures !Text.IsBlank(old(userEmail)) && old(selectedRole) != "" && !dbOk ==>
        userRoles == old(userRoles) && userEmail == old(userEmail) && selectedRole == old(selectedRole)
        && showAssignUser == old(showAssignUser)
      ensures !Text.IsBlank(old(userEmail)) && old(selectedRole) != "" && dbOk ==>
        && userRoles == AssignRole(old(userRoles), old(userEmail), old(selectedRole), newId, newUserId)
        && RoleOfEmail(userRoles, old(userEmail)) == Some(old(selectedRole))
        && userEmail == "" && selectedRole == "" && !showAssignUser
    {
      if Text.IsBlank(userEmail) || selectedRole == "" {
        return;
      }
      isAssigning := true;
      if dbOk {
        AssignThenLookup(userRoles, userEmail, selectedRole, newId, newUserId);
        var existing := FindByEmail(userRoles, userEmail);
        if existing.Some? {
          var id := userRoles[existing.value].id;
          var role := selectedRole;
          userRoles := Seqs.Map((ur: UserProjectRole) => if ur.id == id then ur.(roleName := role) else ur, userRoles);
        } else {
          userRoles := userRoles + [UserProjectRole(newId, newUserId, selectedRole, userEmail)];
        }
        userEmail, selectedRole := "", "";
        showAssignUser := false;
      }
      isAssigning := false;
    }

    /**
     * `removeUserFromProject`: on success the rows with that id are dropped, the rest kept
     * in order; with unique ids exactly one row goes when the id is listed.
     */
    method RemoveUserFromProject(userRoleId: string, dbOk: bool)
      modifies this`userRoles
      ensures userRoles == if dbOk then Seqs.Reject(old(userRoles), AssignmentIdOf, userRoleId) else old(userRoles)
      ensures dbOk && Seqs.Distinct(Seqs.Map(AssignmentIdOf, old(userRoles))) ==>
        |userRoles| == if userRoleId in Seqs.Map(AssignmentIdOf, old(userRoles)) then |old(userRoles)| - 1
                       else |old(userRoles)|
    {
      if dbOk {
        if Seqs.Distinct(Seqs.Map(AssignmentIdOf, userRoles)) {
          Seqs.RejectDistinctKeys(userRoles, AssignmentIdOf, userRoleId);
        }
        userRoles := Seqs.Reject(userRoles, AssignmentIdOf, userRoleId);
      }
    }

    /** `getRolesByName`, by the same `forEach`; it changes nothing. */
    method GetRolesByName() returns (g: Groups)
      ensures g == GroupByRole(userRoles)
      ensures forall k :: k in g.members ==> g.members[k] == Seqs.Select(userRoles, RoleOf, k)
    {
      g := Groups([], map[]);
      var i := 0;
      while i < |userRoles|
        invariant 0 <= i <= |userRoles|
        invariant g == GroupByRole(userRoles[..i])
      {
        Seqs.TakeSnoc(userRoles, i);
        var ur := userRoles[i];
        if ur.roleName in g.members {
          g := g.(members := g.members[ur.roleName := g.members[ur.roleName] + [ur]]);
        } else {
          g := Groups(g.order + [ur.roleName], g.members[ur.roleName := [ur]]);
        }
        i := i + 1;
      }
      Seqs.TakeAll(userRoles, i);
      GroupsAreSelections(userRoles);
    }
  }
}
