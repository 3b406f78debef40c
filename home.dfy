/** The home page of app/page.tsx: the announcements of the viewer's
    department (and company-wide ones) and the selections its sections show.
    Unlike the announcements page there is no exception for admins or the ceo. */
module Home {
  import opened Seqs
  import opened Types

  /** `a.department === "all" || a.department === user?.department` */
  predicate InFeed(a: Announcement, user: Option<User>)
  {
    a.department == Department.All || (user.Some? && a.department == user.value.department)
  }

  function Feed(anns: seq<Announcement>, user: Option<User>): seq<Announcement>
  {
    Filter(anns, a => InFeed(a, user))
  }

  function WithPriority(s: seq<Announcement>, p: Priority): seq<Announcement>
  {
    Filter(s, (a: Announcement) => a.priority == p)
  }

  datatype HomeView = HomeView(
    announcementCount: nat,
    eventCount: nat,
    featuredCeo: Option<Announcement>,
    urgent: seq<Announcement>,
    recent: seq<Announcement>,
    departmentNews: seq<Announcement>,
    upcomingEvents: seq<Event>)

  function View(anns: seq<Announcement>, evs: seq<Event>, user: Option<User>): HomeView
  {
    var feed := Feed(anns, user);
    var ceo := WithPriority(feed, Priority.Ceo);
    HomeView(
      |feed|,
      |evs|,
      if |ceo| > 0 then Some(ceo[0]) else None,
      Take(WithPriority(feed, Priority.Urgent), 3),
      Take(feed, 4),
      Take(Filter(feed, (a: Announcement) => a.department != Department.All), 3),
      Take(evs, 3))
  }

  /** The feed holds exactly the viewer's department's and the company-wide
      announcements, in order, whatever the viewer's role. */
  lemma FeedSpec(anns: seq<Announcement>, user: Option<User>)
    ensures forall a :: a in Feed(anns, user) <==> a in anns && InFeed(a, user)
    ensures IsSubsequence(Feed(anns, user), anns)
  {
    forall a ensures a in Feed(anns, user) <==> a in anns && InFeed(a, user) {
      FilterMembership(anns, a => InFeed(a, user), a);
    }
    FilterIsSubsequence(anns, a => InFeed(a, user));
  }

  lemma WithPrioritySpec(s: seq<Announcement>, p: Priority)
    ensures forall a :: a in WithPriority(s, p) <==> a in s && a.priority == p
    ensures IsSubsequence(WithPriority(s, p), s)
  {
    forall a ensures a in WithPriority(s, p) <==> a in s && a.priority == p {
      FilterMembership(s, (a: Announcement) => a.priority == p, a);
    }
    FilterIsSubsequence(s, (a: Announcement) => a.priority == p);
  }

  /** The sections: the feed and event counts, and the first three urgent items,
      the first four of the feed, the first three department items (none
      company-wide) and the first three events, each as many as there are. */
  lemma ViewSpec(anns: seq<Announcement>, evs: seq<Event>, user: Option<User>)
    ensures var v := View(anns, evs, user); var feed := Feed(anns, user);
      && v.announcementCount == |feed| && v.eventCount == |evs|
      && (var urgent := WithPriority(feed, Priority.Urgent);
          |v.urgent| == (if 3 < |urgent| then 3 else |urgent|) && v.urgent <= urgent)
      && (forall a :: a in v.urgent ==> a in feed && a.priority == Priority.Urgent)
      && |v.recent| == (if 4 < |feed| then 4 else |feed|) && v.recent <= feed
      && (var news := Filter(feed, (a: Announcement) => a.department != Department.All);
          |v.departmentNews| == (if 3 < |news| then 3 else |news|) && v.departmentNews <= news)
      && (forall a :: a in v.departmentNews ==> a in feed && a.department != Department.All)
      && |v.upcomingEvents| == (if 3 < |evs| then 3 else |evs|) && v.upcomingEvents <= evs
  {
    var feed := Feed(anns, user);
    WithPrioritySpec(feed, Priority.Urgent);
    var news := Filter(feed, (a: Announcement) => a.department != Department.All);
    forall a | a in Take(news, 3) ensures a in feed && a.department != Department.All {
      FilterMembership(feed, (a: Announcement) => a.department != Department.All, a);
    }
  }

  /** The featured ceo item is the first ceo item of the feed, and there is none
      exactly when the feed has no ceo item. */
  lemma FeaturedCeoIsFirst(anns: seq<Announcement>, evs: seq<Event>, user: Option<User>)
    ensures var v := View(anns, evs, user); var feed := Feed(anns, user);
      && (v.featuredCeo.None? <==> forall a :: a in feed ==> a.priority != Priority.Ceo)
      && (v.featuredCeo.Some? ==>
            exists i :: 0 <= i < |feed| && feed[i] == v.featuredCeo.value && feed[i].priority == Priority.Ceo
              && forall j :: 0 <= j < i ==> feed[j].priority != Priority.Ceo)
  {
    var feed := Feed(anns, user);
    WithPrioritySpec(feed, Priority.Ceo);
    if WithPriority(feed, Priority.Ceo) != [] {
      FilterHeadIsFirst(feed, (a: Announcement) => a.priority == Priority.Ceo);
    }
  }
}
