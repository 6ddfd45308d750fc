/**
 * The collaborator's dashboard: the search over the assigned projects, the shortened
 * description on each card, the unread badge, and opening a project.
 */
module CollaboratorDashboard {
  import opened Wrappers
  import Seqs
  import Text
  import UnreadMessages

  /** A `projects` row; the description is optional. */
  datatype Project = Project(id: string, name: string, description: Option<string>,
                             createdAt: string, updatedAt: string, createdBy: string, archived: bool)

  const ShortLength := 25
  const Ellipsis := "..."

  /** `project.description && ...`: a description that is present and not empty. */
  predicate HasDescription(p: Project)
  {
    p.description.Some? && p.description.value != ""
  }

  /** The search test: the lower-cased term occurs in the lower-cased name or description. */
  predicate Matches(term: string, p: Project)
  {
    Text.Contains(Text.Lower(p.name), Text.Lower(term))
    || (HasDescription(p) && Text.Contains(Text.Lower(p.description.value), Text.Lower(term)))
  }

  function SearchFilter(term: string): Project -> bool
  {
    (p: Project) => Matches(term, p)
  }

  /** `filteredProjects`: the matching projects, in list order. */
  function FilteredProjects(projects: seq<Project>, term: string): (r: seq<Project>)
    ensures |r| <= |projects|
    ensures forall p :: p in r <==> p in projects && Matches(term, p)
  {
    Seqs.Filter(SearchFilter(term), projects)
  }

  /** The search keeps the list's order: searching a concatenation concatenates the results. */
  lemma SearchKeepsOrder(a: seq<Project>, b: seq<Project>, term: string)
    ensures FilteredProjects(a + b, term) == FilteredProjects(a, term) + FilteredProjects(b, term)
  {
    Seqs.FilterAppend(SearchFilter(term), a, b);
  }

  /** An empty search term keeps every project. */
  lemma EmptySearchKeepsAll(projects: seq<Project>)
    ensures FilteredProjects(projects, "") == projects
  {
    forall p | p in projects ensures SearchFilter("")(p) {
      assert Text.Lower("") == "";
    }
    Seqs.FilterKeepsAll(SearchFilter(""), projects);
  }

  /** The search is blind to the case of the term. */
  lemma SearchIgnoresCase(projects: seq<Project>, term: string)
    ensures FilteredProjects(projects, Text.Lower(term)) == FilteredProjects(projects, term)
  {
    Text.LowerProperties(term);
    Seqs.FilterSameTest(SearchFilter(Text.Lower(term)), SearchFilter(term), projects);
  }

  /** The card text of a description: its first 25 characters and an ellipsis when longer. */
  function ShownDescription(d: string): string
  {
    if |d| > ShortLength then d[..ShortLength] + Ellipsis else d
  }

  /** The "Leia mais" control. */
  predicate ShowReadMore(d: string)
  {
    |d| > ShortLength
  }

  /**
   * Without "Leia mais" the whole description is shown; with it, the card keeps exactly
   * the first 25 characters and adds the ellipsis, so the card never exceeds 28
   * characters. Shortening what is shown changes nothing more.
   */
  lemma DescriptionShortening(d: string)
    ensures !ShowReadMore(d) ==> ShownDescription(d) == d
    ensures ShowReadMore(d) ==>
      ShownDescription(d)[..ShortLength] == d[..ShortLength] && Text.EndsWith(ShownDescription(d), Ellipsis)
    ensures |ShownDescription(d)| <= ShortLength + |Ellipsis|
    ensures ShownDescription(ShownDescription(d)) == ShownDescription(d)
  {
    var r := ShownDescription(d);
    if ShowReadMore(d) {
      assert r[..ShortLength] == d[..ShortLength];
      assert r[|r| - |Ellipsis|..] == Ellipsis;
    }
  }

  /** What a card shows under the name: nothing, or the shortened text and whether "Leia mais" appears. */
  function DescriptionView(p: Project): (v: Option<(string, bool)>)
    ensures v.Some? <==> HasDescription(p)
    ensures v.Some? ==> v.value.1 == (|p.description.value| > ShortLength)
  {
    if HasDescription(p) then
      var d := p.description.value;
      Some((ShownDescription(d), ShowReadMore(d)))
    else None
  }

  /** `unreadCounts[project.id] || 0`. */
  function BadgeCount(unreadCounts: map<string, nat>, projectId: string): (n: nat)
    ensures n > 0 <==> projectId in unreadCounts && unreadCounts[projectId] > 0
  {
    UnreadMessages.CountOf(unreadCounts, projectId)
  }

  /** The dashboard's state, with the unread-messages hook it uses. */
  class Dashboard {
    const unread: UnreadMessages.UnreadMessagesHook
    var projects: seq<Project>
    var loading: bool
    var selectedProject: Option<Project>
    var searchTerm: string

    constructor (unread: UnreadMessages.UnreadMessagesHook)
      ensures this.unread == unread
      ensures projects == [] && loading && selectedProject == None && searchTerm == ""
    {
      this.unread := unread;
      projects := [];
      loading := true;
      selectedProject := None;
      searchTerm := "";
    }

    /** `fetchProjects`: the query's rows replace the list; a failed query keeps it. */
    method FetchProjects(rows: Option<seq<Project>>)
      modifies this`projects, this`loading
      ensures projects == if rows.Some? then rows.value else old(projects)
      ensures !loading
    {
      if rows.Some? {
        projects := rows.value;
      }
      loading := false;
    }

    /**
     * `handleProjectOpen`: the project is always selected; its messages are marked read
     * only when its unread count is positive, and `inserts` are the read-status rows sent.
     */
    method HandleProjectOpen(p: Project, userId: string, projectMessageIds: Option<seq<string>>,
                             alreadyRead: Option<seq<string>>, insertOk: bool)
      returns (inserts: seq<UnreadMessages.ReadInsert>)
      modifies this`selectedProject, unread`unreadCounts
      ensures selectedProject == Some(p)
      ensures BadgeCount(old(unread.unreadCounts), p.id) == 0 ==>
        inserts == [] && unread.unreadCounts == old(unread.unreadCounts)
      ensures BadgeCount(old(unread.unreadCounts), p.id) > 0 ==>
        && inserts == (if projectMessageIds.Some? && alreadyRead.Some?
                       then UnreadMessages.ReadInserts(userId, projectMessageIds.value, set id | id in alreadyRead.value)
                       else [])
        && unread.unreadCounts == if inserts != [] && insertOk then old(unread.unreadCounts)[p.id := 0]
                                  else old(unread.unreadCounts)
    {
      inserts := [];
      if BadgeCount(unread.unreadCounts, p.id) > 0 {
        inserts := unread.MarkProjectMessagesAsRead(true, userId, p.id, projectMessageIds, alreadyRead, insertOk);
      }
      selectedProject := Some(p);
    }
  }
}
