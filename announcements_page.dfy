/** The announcement listing of app/announcements/page.tsx: one filter over
    the mock announcements combining the search box, the priority and
    department selectors and the viewer's own department. The page does not
    look at moderation status. */
module AnnouncementsPage {
  import opened Seqs
  import opened Types
  import opened Store

  /** The priority selector: `"all"` or one priority. */
  datatype PriorityFilter = AnyPriority | OnlyPriority(priority: Priority)

  predicate MatchesPriority(a: Announcement, f: PriorityFilter)
  {
    f.AnyPriority? || a.priority == f.priority
  }

  /** The department selector passes `all` records and, unless it is `all` itself, those of its department. */
  predicate MatchesDepartment(a: Announcement, f: Department)
  {
    f == Department.All || a.department == Department.All || a.department == f
  }

  /** The viewer rule: `all` records, the viewer's own department, or any record
      for an admin or ceo. Without a viewer, `user?.department` is undefined and
      only `all` records pass. */
  predicate MatchesViewer(a: Announcement, user: Option<User>)
  {
    a.department == Department.All
    || (user.Some? && a.department == user.value.department)
    || (user.Some? && user.value.role == Role.Admin)
    || (user.Some? && user.value.role == Role.Ceo)
  }

  predicate Shown(a: Announcement, query: string, pf: PriorityFilter, df: Department, user: Option<User>)
  {
    AnnouncementMatches(a, query) && MatchesPriority(a, pf) && MatchesDepartment(a, df) && MatchesViewer(a, user)
  }

  function FilteredAnnouncements(s: seq<Announcement>, query: string, pf: PriorityFilter, df: Department, user: Option<User>): seq<Announcement>
  {
    Filter(s, a => Shown(a, query, pf, df, user))
  }

  predicate IsModerator(user: Option<User>)
  {
    user.Some? && (user.value.role == Role.Admin || user.value.role == Role.Ceo)
  }

  /** A record is listed iff it passes all four conditions; the listing keeps the mock order. */
  lemma FilteredSpec(s: seq<Announcement>, query: string, pf: PriorityFilter, df: Department, user: Option<User>)
    ensures forall a :: a in FilteredAnnouncements(s, query, pf, df, user) <==>
      a in s && AnnouncementMatches(a, query) && MatchesPriority(a, pf) && MatchesDepartment(a, df) && MatchesViewer(a, user)
    ensures IsSubsequence(FilteredAnnouncements(s, query, pf, df, user), s)
  {
    forall a ensures a in FilteredAnnouncements(s, query, pf, df, user) <==> a in s && Shown(a, query, pf, df, user) {
      FilterMembership(s, a => Shown(a, query, pf, df, user), a);
    }
    FilterIsSubsequence(s, a => Shown(a, query, pf, df, user));
  }

  /** A viewer who is neither admin nor ceo sees only `all` records and those of
      their own department, whatever the selectors say. */
  lemma OrdinaryViewerSeesOwnDepartment(s: seq<Announcement>, query: string, pf: PriorityFilter, df: Department, user: Option<User>)
    requires !IsModerator(user)
    ensures forall a :: a in FilteredAnnouncements(s, query, pf, df, user) ==>
      a.department == Department.All || (user.Some? && a.department == user.value.department)
  {
    FilteredSpec(s, query, pf, df, user);
  }

  /** For an admin or ceo the viewer rule never excludes anything. */
  lemma ModeratorUnrestricted(a: Announcement, user: Option<User>)
    requires IsModerator(user)
    ensures MatchesViewer(a, user)
  {
  }

  /** With an empty search and both selectors at `all`, an admin or ceo sees the whole list. */
  lemma NoFiltersShowsAll(s: seq<Announcement>, user: Option<User>)
    requires IsModerator(user)
    ensures FilteredAnnouncements(s, "", AnyPriority, Department.All, user) == s
  {
    forall a: Announcement ensures AnnouncementMatches(a, "") {
      MatchesEmptyQuery(a.title);
    }
    FilterAll(s, a => Shown(a, "", AnyPriority, Department.All, user));
  }
}
