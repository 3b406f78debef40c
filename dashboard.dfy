/** The dashboard of app/dashboard/page.tsx: the same department feed as the
    home page (app/page.tsx filters with the identical expression), a badge with
    its size, and tabs for all, urgent, important and the events. */
module Dashboard {
  import opened Seqs
  import opened Types
  import opened Home

  datatype DashboardView = DashboardView(
    badge: nat,
    all: seq<Announcement>,
    urgent: seq<Announcement>,
    important: seq<Announcement>,
    events: seq<Event>)

  function View(anns: seq<Announcement>, evs: seq<Event>, user: Option<User>): DashboardView
  {
    var feed := Feed(anns, user);
    DashboardView(|feed|, feed, WithPriority(feed, Priority.Urgent), WithPriority(feed, Priority.Important), evs)
  }

  /** The `all` tab shows exactly the company-wide and own-department
      announcements, in order, the badge counts them, every other tab is drawn
      from it in order, and the events tab shows every event. */
  lemma ViewSpec(anns: seq<Announcement>, evs: seq<Event>, user: Option<User>)
    ensures var v := View(anns, evs, user);
      v.badge == |v.all|
      && (forall a :: a in v.all <==> a in anns && (a.department == Department.All || (user.Some? && a.department == user.value.department)))
      && IsSubsequence(v.all, anns)
      && (forall a :: a in v.urgent <==> a in v.all && a.priority == Priority.Urgent)
      && (forall a :: a in v.important <==> a in v.all && a.priority == Priority.Important)
      && IsSubsequence(v.urgent, v.all) && IsSubsequence(v.important, v.all)
      && v.events == evs
  {
    var feed := Feed(anns, user);
    FeedSpec(anns, user);
    WithPrioritySpec(feed, Priority.Urgent);
    WithPrioritySpec(feed, Priority.Important);
  }
}
