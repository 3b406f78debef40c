/** The client-side application store of lib/store.ts. Each action replaces
    one or two fields of the state with a value computed from the old one by
    prepending, `map` or `filter`; the class below does the same, and every
    method's frame (`modifies this`field`) is the "nothing else changes"
    half of its contract. The pure functions after the class are the values
    those actions compute, and the lemmas state what the source promises of them. */
module Store {
  import opened Seqs
  import opened Text
  import opened Types
  import opened Records

  datatype SearchResults = SearchResults(announcements: seq<Announcement>, events: seq<Event>, documents: seq<Document>)

  /** The store's initial user. */
  const DefaultUser := User(
    "1", "John Smith", "john.smith@company.com", Role.Admin, Department.Engineering, "", true,
    "Senior Engineer", "Tokyo, Japan", "+81 90-1234-5678", "Passionate about building great software.",
    UserPreferences(ThemeMode.System, Language.En, true, true, true))

  class AppStore {
    var user: Option<User>
    var theme: ThemeMode
    var announcements: seq<Announcement>
    var events: seq<Event>
    var notifications: seq<Notification>
    var teams: seq<TeamsTeam>
    var teamsMessages: seq<TeamsMessage>
    var documents: seq<Document>
    var helpTickets: seq<HelpTicket>
    var searchQuery: string
    var searchResults: SearchResults

    constructor ()
      ensures user == Some(DefaultUser) && theme == ThemeMode.System
      ensures announcements == [] && events == [] && notifications == []
      ensures teams == [] && teamsMessages == [] && documents == [] && helpTickets == []
      ensures searchQuery == "" && searchResults == SearchResults([], [], [])
    {
      user := Some(DefaultUser);
      theme := ThemeMode.System;
      announcements, events, notifications := [], [], [];
      teams, teamsMessages, documents, helpTickets := [], [], [], [];
      searchQuery := "";
      searchResults := SearchResults([], [], []);
    }

    // ------------------------------------------------------------- user

    method SetUser(u: Option<User>)
      modifies this`user
      ensures user == u
    {
      user := u;
    }

    /** A signed-out store stays signed out; otherwise the supplied fields overwrite. */
    method UpdateUserProfile(updates: UserUpdate)
      modifies this`user
      ensures old(user).None? ==> user.None?
      ensures old(user).Some? ==> user == Some(MergeUser(old(user).value, updates))
    {
      if user.Some? {
        user := Some(MergeUser(user.value, updates));
      }
    }

    /** Only the preferences of a signed-in user change, and only the supplied ones. */
    method UpdateUserPreferences(prefs: PreferencesUpdate)
      modifies this`user
      ensures old(user).None? ==> user.None?
      ensures old(user).Some? ==> user == Some(old(user).value.(preferences := MergePreferences(old(user).value.preferences, prefs)))
    {
      if user.Some? {
        user := Some(user.value.(preferences := MergePreferences(user.value.preferences, prefs)));
      }
    }

    method SetTheme(t: ThemeMode)
      modifies this`theme
      ensures theme == t
    {
      theme := t;
    }

    // ---------------------------------------------------- announcements

    method SetAnnouncements(s: seq<Announcement>)
      modifies this`announcements
      ensures announcements == s
    {
      announcements := s;
    }

    method AddAnnouncement(a: Announcement)
      modifies this`announcements
      ensures announcements == [a] + old(announcements)
    {
      announcements := [a] + announcements;
    }

    method UpdateAnnouncement(id: string, updates: AnnouncementUpdate)
      modifies this`announcements
      ensures announcements == UpdateAnnouncements(old(announcements), id, updates)
    {
      announcements := UpdateAnnouncements(announcements, id, updates);
    }

    method DeleteAnnouncement(id: string)
      modifies this`announcements
      ensures announcements == DeleteAnnouncements(old(announcements), id)
    {
      announcements := DeleteAnnouncements(announcements, id);
    }

    // ----------------------------------------------------------- events

    method SetEvents(s: seq<Event>)
      modifies this`events
      ensures events == s
    {
      events := s;
    }

    method AddEvent(e: Event)
      modifies this`events
      ensures events == [e] + old(events)
    {
      events := [e] + events;
    }

    method UpdateEvent(id: string, updates: EventUpdate)
      modifies this`events
      ensures events == UpdateEvents(old(events), id, updates)
    {
      events := UpdateEvents(events, id, updates);
    }

    method DeleteEvent(id: string)
      modifies this`events
      ensures events == DeleteEvents(old(events), id)
    {
      events := DeleteEvents(events, id);
    }

    // ---------------------------------------------------- notifications

    method SetNotifications(s: seq<Notification>)
      modifies this`notifications
      ensures notifications == s
    {
      notifications := s;
    }

    method AddNotification(n: Notification)
      modifies this`notifications
      ensures notifications == [n] + old(notifications)
    {
      notifications := [n] + notifications;
    }

    method MarkNotificationRead(id: string)
      modifies this`notifications
      ensures notifications == MarkRead(old(notifications), id)
    {
      notifications := MarkRead(notifications, id);
    }

    method MarkAllNotificationsRead()
      modifies this`notifications
      ensures notifications == MarkAllRead(old(notifications))
      ensures UnreadCount(notifications) == 0
    {
      notifications := MarkAllRead(notifications);
      MarkAllReadSpec(old(notifications));
    }

    // ------------------------------------------------------------ teams

    method SetTeams(s: seq<TeamsTeam>)
      modifies this`teams
      ensures teams == s
    {
      teams := s;
    }

    method SetTeamsMessages(s: seq<TeamsMessage>)
      modifies this`teamsMessages
      ensures teamsMessages == s
    {
      teamsMessages := s;
    }

    method AddTeamsMessage(m: TeamsMessage)
      modifies this`teamsMessages
      ensures teamsMessages == [m] + old(teamsMessages)
    {
      teamsMessages := [m] + teamsMessages;
    }

    // -------------------------------------------------------- documents

    method SetDocuments(s: seq<Document>)
      modifies this`documents
      ensures documents == s
    {
      documents := s;
    }

    // ----------------------------------------------------- help tickets

    method SetHelpTickets(s: seq<HelpTicket>)
      modifies this`helpTickets
      ensures helpTickets == s
    {
      helpTickets := s;
    }

    method AddHelpTicket(t: HelpTicket)
      modifies this`helpTickets
      ensures helpTickets == [t] + old(helpTickets)
    {
      helpTickets := [t] + helpTickets;
    }

    method UpdateHelpTicket(id: string, updates: TicketUpdate)
      modifies this`helpTickets
      ensures helpTickets == UpdateTickets(old(helpTickets), id, updates)
    {
      helpTickets := UpdateTickets(helpTickets, id, updates);
    }

    // ----------------------------------------------------------- search

    method SetSearchQuery(q: string)
      modifies this`searchQuery
      ensures searchQuery == q
    {
      searchQuery := q;
    }

    /** Stores the query and, for each of the three collections, the
        order-preserving subsequence of the records matching it. */
    method PerformSearch(query: string)
      modifies this`searchResults, this`searchQuery
      ensures searchQuery == query
      ensures searchResults == Search(announcements, events, documents, query)
      ensures query == "" ==> searchResults == SearchResults(announcements, events, documents)
    {
      searchResults := Search(announcements, events, documents, query);
      searchQuery := query;
      if query == "" {
        SearchEmptyQuery(announcements, events, documents);
      }
    }
  }

  // ------------------------------------------------------ record keys

  function AnnouncementId(a: Announcement): string { a.id }
  function EventId(e: Event): string { e.id }
  function NotificationId(n: Notification): string { n.id }
  function TicketId(t: HelpTicket): string { t.id }

  // ------------------------------------------------- computed values

  function UpdateAnnouncements(s: seq<Announcement>, id: string, u: AnnouncementUpdate): seq<Announcement>
  {
    UpdateById(s, AnnouncementId, id, a => MergeAnnouncement(a, u))
  }

  function DeleteAnnouncements(s: seq<Announcement>, id: string): seq<Announcement>
  {
    DeleteById(s, AnnouncementId, id)
  }

  function UpdateEvents(s: seq<Event>, id: string, u: EventUpdate): seq<Event>
  {
    UpdateById(s, EventId, id, e => MergeEvent(e, u))
  }

  function DeleteEvents(s: seq<Event>, id: string): seq<Event>
  {
    DeleteById(s, EventId, id)
  }

  function UpdateTickets(s: seq<HelpTicket>, id: string, u: TicketUpdate): seq<HelpTicket>
  {
    UpdateById(s, TicketId, id, t => MergeTicket(t, u))
  }

  /** `n.id === id ? { ...n, isRead: true } : n` over the list. */
  function MarkRead(s: seq<Notification>, id: string): seq<Notification>
  {
    UpdateById(s, NotificationId, id, (n: Notification) => n.(isRead := true))
  }

  /** `{ ...n, isRead: true }` over the whole list. */
  function MarkAllRead(s: seq<Notification>): seq<Notification>
  {
    MapWhere(s, n => true, (n: Notification) => n.(isRead := true))
  }

  /** `notifications.filter(n => !n.isRead).length` */
  function UnreadCount(s: seq<Notification>): nat
  {
    Count(s, (n: Notification) => !n.isRead)
  }

  /** `text.toLowerCase().includes(query.toLowerCase())` */
  predicate MatchesText(text: string, query: string)
  {
    Contains(Lower(text), Lower(query))
  }

  predicate AnnouncementMatches(a: Announcement, query: string)
  {
    MatchesText(a.title, query) || MatchesText(a.content, query)
  }

  predicate EventMatches(e: Event, query: string)
  {
    MatchesText(e.title, query) || MatchesText(e.description, query)
  }

  predicate DocumentMatches(d: Document, query: string)
  {
    MatchesText(d.name, query)
  }

  function Search(anns: seq<Announcement>, evs: seq<Event>, docs: seq<Document>, query: string): SearchResults
  {
    SearchResults(
      Filter(anns, a => AnnouncementMatches(a, query)),
      Filter(evs, e => EventMatches(e, query)),
      Filter(docs, d => DocumentMatches(d, query)))
  }

  // ------------------------------------------------------------ lemmas

  /** Updating merges the update into exactly the records with that id,
      keeps every other record and the length. */
  lemma UpdateAnnouncementsSpec(s: seq<Announcement>, id: string, u: AnnouncementUpdate)
    ensures |UpdateAnnouncements(s, id, u)| == |s|
    ensures forall i :: 0 <= i < |s| ==>
      UpdateAnnouncements(s, id, u)[i] == if s[i].id == id then MergeAnnouncement(s[i], u) else s[i]
  {
    UpdateByIdSpec(s, AnnouncementId, id, a => MergeAnnouncement(a, u));
  }

  lemma UpdateEventsSpec(s: seq<Event>, id: string, u: EventUpdate)
    ensures |UpdateEvents(s, id, u)| == |s|
    ensures forall i :: 0 <= i < |s| ==>
      UpdateEvents(s, id, u)[i] == if s[i].id == id then MergeEvent(s[i], u) else s[i]
  {
    UpdateByIdSpec(s, EventId, id, e => MergeEvent(e, u));
  }

  lemma UpdateTicketsSpec(s: seq<HelpTicket>, id: string, u: TicketUpdate)
    ensures |UpdateTickets(s, id, u)| == |s|
    ensures forall i :: 0 <= i < |s| ==>
      UpdateTickets(s, id, u)[i] == if s[i].id == id then MergeTicket(s[i], u) else s[i]
  {
    UpdateByIdSpec(s, TicketId, id, t => MergeTicket(t, u));
  }

  /** Deleting removes exactly the records with that id and keeps the rest in order. */
  lemma DeleteAnnouncementsSpec(s: seq<Announcement>, id: string)
    ensures forall a :: a in DeleteAnnouncements(s, id) <==> a in s && a.id != id
    ensures IsSubsequence(DeleteAnnouncements(s, id), s)
  {
    DeleteByIdSpec(s, AnnouncementId, id);
  }

  lemma DeleteEventsSpec(s: seq<Event>, id: string)
    ensures forall e :: e in DeleteEvents(s, id) <==> e in s && e.id != id
    ensures IsSubsequence(DeleteEvents(s, id), s)
  {
    DeleteByIdSpec(s, EventId, id);
  }

  /** Marking one notification read touches only `isRead`, and only on the records with that id. */
  lemma MarkReadSpec(s: seq<Notification>, id: string)
    ensures |MarkRead(s, id)| == |s|
    ensures forall i :: 0 <= i < |s| && s[i].id == id ==> MarkRead(s, id)[i] == s[i].(isRead := true)
    ensures forall i :: 0 <= i < |s| && s[i].id != id ==> MarkRead(s, id)[i] == s[i]
    ensures MarkRead(MarkRead(s, id), id) == MarkRead(s, id)
  {
    UpdateByIdSpec(s, NotificationId, id, (n: Notification) => n.(isRead := true));
    UpdateByIdIdempotent(s, NotificationId, id, (n: Notification) => n.(isRead := true));
  }

  /** Marking all read keeps the length and every other field, leaves nothing
      unread, and doing it twice is doing it once. */
  lemma MarkAllReadSpec(s: seq<Notification>)
    ensures |MarkAllRead(s)| == |s|
    ensures forall i :: 0 <= i < |s| ==> MarkAllRead(s)[i] == s[i].(isRead := true)
    ensures UnreadCount(MarkAllRead(s)) == 0
    ensures MarkAllRead(MarkAllRead(s)) == MarkAllRead(s)
  {
    var r := MarkAllRead(s);
    assert forall i :: 0 <= i < |r| ==> r[i].isRead;
    NoneUnread(r);
    MapWhereIdempotent(s, n => true, (n: Notification) => n.(isRead := true));
  }

  lemma {:induction false} NoneUnread(s: seq<Notification>)
    requires forall i :: 0 <= i < |s| ==> s[i].isRead
    ensures UnreadCount(s) == 0
  {
    if s != [] {
      NoneUnread(s[1..]);
    }
  }

  /** `includes` on lowered strings ignores the case of the query (of its ASCII letters). */
  lemma MatchesTextIgnoresCase(text: string, query: string)
    ensures MatchesText(text, Lower(query)) == MatchesText(text, query)
    ensures MatchesText(Lower(text), query) == MatchesText(text, query)
  {
    LowerIdempotent(query);
    LowerIdempotent(text);
  }

  /** Every text matches the empty query. */
  lemma MatchesEmptyQuery(t: string)
    ensures MatchesText(t, "")
  {
    ContainsEmpty(Lower(t));
  }

  /** Each result list holds exactly the matching records, as an order-preserving subsequence. */
  lemma SearchSpec(anns: seq<Announcement>, evs: seq<Event>, docs: seq<Document>, query: string)
    ensures forall a :: a in Search(anns, evs, docs, query).announcements <==> a in anns && AnnouncementMatches(a, query)
    ensures forall e :: e in Search(anns, evs, docs, query).events <==> e in evs && EventMatches(e, query)
    ensures forall d :: d in Search(anns, evs, docs, query).documents <==> d in docs && DocumentMatches(d, query)
    ensures IsSubsequence(Search(anns, evs, docs, query).announcements, anns)
    ensures IsSubsequence(Search(anns, evs, docs, query).events, evs)
    ensures IsSubsequence(Search(anns, evs, docs, query).documents, docs)
  {
    forall a ensures a in Search(anns, evs, docs, query).announcements <==> a in anns && AnnouncementMatches(a, query) {
      FilterMembership(anns, a => AnnouncementMatches(a, query), a);
    }
    forall e ensures e in Search(anns, evs, docs, query).events <==> e in evs && EventMatches(e, query) {
      FilterMembership(evs, e => EventMatches(e, query), e);
    }
    forall d ensures d in Search(anns, evs, docs, query).documents <==> d in docs && DocumentMatches(d, query) {
      FilterMembership(docs, d => DocumentMatches(d, query), d);
    }
    FilterIsSubsequence(anns, a => AnnouncementMatches(a, query));
    FilterIsSubsequence(evs, e => EventMatches(e, query));
    FilterIsSubsequence(docs, d => DocumentMatches(d, query));
  }

  /** Every string contains the empty one, so the empty query finds everything. */
  lemma SearchEmptyQuery(anns: seq<Announcement>, evs: seq<Event>, docs: seq<Document>)
    ensures Search(anns, evs, docs, "") == SearchResults(anns, evs, docs)
  {
    forall t: string ensures MatchesText(t, "") { MatchesEmptyQuery(t); }
    FilterAll(anns, a => AnnouncementMatches(a, ""));
    FilterAll(evs, e => EventMatches(e, ""));
    FilterAll(docs, d => DocumentMatches(d, ""));
  }
}
