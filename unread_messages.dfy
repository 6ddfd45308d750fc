/**
 * The `useUnreadMessages` hook: per-project counts of chat messages the signed-in user
 * has not read, and marking a project's messages as read. Query results are parameters:
 * `None` is a query that returned an error.
 */
module UnreadMessages {
  import opened Wrappers
  import Seqs

  datatype Message = Message(id: string, projectId: string)

  /** A `message_read_status` row the hook inserts. */
  datatype ReadInsert = ReadInsert(userId: string, messageId: string)

  function ProjectOf(m: Message): string { m.projectId }

  function IdOf(m: Message): string { m.id }

  function IsUnread(read: set<string>): Message -> bool
  {
    (m: Message) => m.id !in read
  }

  /** The messages whose id is not among the read ones, in order. */
  function Unread(ms: seq<Message>, read: set<string>): seq<Message>
  {
    Seqs.Filter(IsUnread(read), ms)
  }

  /** `counts[p] || 0`. */
  function CountOf(counts: map<string, nat>, p: string): nat
  {
    if p in counts then counts[p] else 0
  }

  /** The counts the `forEach` over the messages builds: one increment per unread message. */
  function UnreadCounts(ms: seq<Message>, read: set<string>): map<string, nat>
  {
    if ms == [] then map[]
    else
      var counts := UnreadCounts(ms[..|ms| - 1], read);
      var m := ms[|ms| - 1];
      if m.id in read then counts else counts[m.projectId := CountOf(counts, m.projectId) + 1]
  }

  /**
   * Each project's count is the number of its unread messages, and a project has an
   * entry exactly when it has at least one.
   */
  lemma {:induction false} CountsAreGroupSizes(ms: seq<Message>, read: set<string>, p: string)
    ensures CountOf(UnreadCounts(ms, read), p) == |Seqs.Select(Unread(ms, read), ProjectOf, p)|
    ensures p in UnreadCounts(ms, read) <==> CountOf(UnreadCounts(ms, read), p) > 0
  {
    if ms != [] {
      var init, m := ms[..|ms| - 1], ms[|ms| - 1];
      assert ms == init + [m];
      CountsAreGroupSizes(init, read, p);
      UnreadSnoc(init, m, read);
      var c0, c := UnreadCounts(init, read), UnreadCounts(ms, read);
      if m.id in read {
        assert c == c0;
        assert Unread(ms, read) == Unread(init, read);
      } else {
        assert c == c0[m.projectId := CountOf(c0, m.projectId) + 1];
        assert Unread(ms, read) == Unread(init, read) + [m];
        Seqs.SelectSnoc(Unread(init, read), m, ProjectOf, p);
        if p == m.projectId {
          assert CountOf(c, p) == CountOf(c0, p) + 1;
        } else {
          assert CountOf(c, p) == CountOf(c0, p);
        }
      }
    }
  }

  lemma UnreadSnoc(ms: seq<Message>, m: Message, read: set<string>)
    ensures Unread(ms + [m], read) == Unread(ms, read) + (if m.id in read then [] else [m])
  {
    Seqs.FilterAppend(IsUnread(read), ms, [m]);
    Seqs.FilterSingle(IsUnread(read), m);
  }

  function SumOfCounts(counts: map<string, nat>, ps: seq<string>): nat
  {
    if ps == [] then 0 else CountOf(counts, ps[0]) + SumOfCounts(counts, ps[1..])
  }

  /**
   * The badges add up: over any list of distinct projects that covers every unread
   * message, the counts sum to the number of unread messages.
   */
  lemma TotalUnread(ms: seq<Message>, read: set<string>, ps: seq<string>)
    requires Seqs.Distinct(ps)
    requires forall m :: m in ms && m.id !in read ==> m.projectId in ps
    ensures SumOfCounts(UnreadCounts(ms, read), ps) == |Unread(ms, read)|
  {
    CountsMatchGroups(ms, read, ps);
    Seqs.GroupSizesPartition(Unread(ms, read), ProjectOf, ps);
  }

  lemma {:induction false} CountsMatchGroups(ms: seq<Message>, read: set<string>, ps: seq<string>)
    ensures SumOfCounts(UnreadCounts(ms, read), ps) == Seqs.SumOfGroupSizes(Unread(ms, read), ProjectOf, ps)
  {
    if ps != [] {
      CountsAreGroupSizes(ms, read, ps[0]);
      CountsMatchGroups(ms, read, ps[1..]);
    }
  }

  /**
   * Marking as read a set of ids that holds every message of project `p` and no message of
   * another project: a recount gives `p` no entry and every other project its old count,
   * which is what the local update `[projectId]: 0` shows.
   */
  lemma {:induction false} MarkReadRecount(ms: seq<Message>, read: set<string>, marked: set<string>, p: string, q: string)
    requires forall m :: m in ms && m.projectId == p ==> m.id in marked
    requires forall m :: m in ms && m.projectId != p ==> m.id !in marked
    ensures CountOf(UnreadCounts(ms, read + marked), q) == if q == p then 0 else CountOf(UnreadCounts(ms, read), q)
    ensures p !in UnreadCounts(ms, read + marked)
  {
    if ms != [] {
      var init, m := ms[..|ms| - 1], ms[|ms| - 1];
      assert forall x :: x in init ==> x in ms;
      MarkReadRecount(init, read, marked, p, q);
      MarkReadRecount(init, read, marked, p, p);
    }
  }

  /** With unique message ids, the ids of project `p`'s messages meet the conditions above. */
  lemma ProjectIdsMarkOnlyProject(ms: seq<Message>, p: string)
    requires Seqs.Distinct(Seqs.Map(IdOf, ms))
    ensures var marked := set m | m in Seqs.Select(ms, ProjectOf, p) :: m.id;
      && (forall m :: m in ms && m.projectId == p ==> m.id in marked)
      && (forall m :: m in ms && m.projectId != p ==> m.id !in marked)
  {
    var marked := set m | m in Seqs.Select(ms, ProjectOf, p) :: m.id;
    var ids := Seqs.Map(IdOf, ms);
    forall m | m in ms && m.projectId != p
      ensures m.id !in marked
    {
      var i := Seqs.IndexOf(ms, m);
      forall m' | m' in Seqs.Select(ms, ProjectOf, p)
        ensures m'.id != m.id
      {
        var j := Seqs.IndexOf(ms, m');
        assert ids[i] == m.id && ids[j] == m'.id && i != j;
      }
    }
  }

  function NotRead(read: set<string>): string -> bool
  {
    (id: string) => id !in read
  }

  /** The rows marking the project's still-unread messages as read by the user. */
  function ReadInserts(userId: string, ids: seq<string>, read: set<string>): (r: seq<ReadInsert>)
    ensures forall id :: id in ids ==> id in read || ReadInsert(userId, id) in r
    ensures forall x :: x in r ==> x.userId == userId && x.messageId in ids && x.messageId !in read
    ensures |r| <= |ids|
    ensures Seqs.Map((x: ReadInsert) => x.messageId, r) == Seqs.Filter(NotRead(read), ids)
  {
    var unread := Seqs.Filter(NotRead(read), ids);
    var r := Seqs.Map((id: string) => ReadInsert(userId, id), unread);
    forall id | id in ids && id !in read
      ensures ReadInsert(userId, id) in r
    {
      assert r[Seqs.IndexOf(unread, id)] == ReadInsert(userId, id);
    }
    r
  }

  class UnreadMessagesHook {
    var unreadCounts: map<string, nat>
    var loading: bool

    constructor ()
      ensures unreadCounts == map[] && loading
    {
      unreadCounts := map[];
      loading := true;
    }

    /**
     * `fetchUnreadCounts`: signed out clears the counts; a failed query keeps them;
     * no messages clears them; otherwise the counts are those of the unread messages.
     * Every path ends the loading state.
     */
    method FetchUnreadCounts(signedIn: bool, messages: Option<seq<Message>>, readIds: Option<seq<string>>)
      modifies this
      ensures !loading
      ensures !signedIn ==> unreadCounts == map[]
      ensures signedIn && messages.None? ==> unreadCounts == old(unreadCounts)
      ensures signedIn && messages == Some([]) ==> unreadCounts == map[]
      ensures signedIn && messages.Some? && messages.value != [] && readIds.None? ==>
        unreadCounts == old(unreadCounts)
      ensures signedIn && messages.Some? && messages.value != [] && readIds.Some? ==>
        unreadCounts == UnreadCounts(messages.value, set id | id in readIds.value)
    {
      if !signedIn {
        unreadCounts := map[];
        loading := false;
        return;
      }
      if messages.None? {
        loading := false;
        return;
      }
      var ms := messages.value;
      if ms == [] {
        unreadCounts := map[];
        loading := false;
        return;
      }
      if readIds.None? {
        loading := false;
        return;
      }
      var read := set id | id in readIds.value;
      var counts: map<string, nat> := map[];
      var i := 0;
      while i < |ms|
        invariant 0 <= i <= |ms|
        invariant counts == UnreadCounts(ms[..i], read)
      {
        Seqs.TakeSnoc(ms, i);
        var m := ms[i];
        if m.id !in read {
          counts := counts[m.projectId := CountOf(counts, m.projectId) + 1];
        }
        i := i + 1;
      }
      Seqs.TakeAll(ms, i);
      unreadCounts := counts;
      loading := false;
    }

    /**
     * `markProjectMessagesAsRead`: returns the read-status rows it sends (none when it
     * stops early); only after a successful insert is the project's count set to 0.
     */
    method MarkProjectMessagesAsRead(signedIn: bool, userId: string, projectId: string,
                                     projectMessageIds: Option<seq<string>>, alreadyRead: Option<seq<string>>,
                                     insertOk: bool)
      returns (inserts: seq<ReadInsert>)
      modifies this`unreadCounts
      ensures inserts == if signedIn && projectMessageIds.Some? && alreadyRead.Some?
                         then ReadInserts(userId, projectMessageIds.value, set id | id in alreadyRead.value)
                         else []
      ensures unreadCounts == if inserts != [] && insertOk then old(unreadCounts)[projectId := 0]
                              else old(unreadCounts)
    {
      inserts := [];
      if !signedIn || projectMessageIds.None? || alreadyRead.None? {
        return;
      }
      inserts := ReadInserts(userId, projectMessageIds.value, set id | id in alreadyRead.value);
      if inserts == [] || !insertOk {
        return;
      }
      unreadCounts := unreadCounts[projectId := 0];
    }
  }
}
