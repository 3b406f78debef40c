/** The help desk of app/help-desk/page.tsx: a ticket list seeded from the
    mock tickets (a parameter), a search box, the new-ticket dialog and the
    reply box of the selected ticket. The clock reading `now` stands for both
    `Date.now()` (in generated ids) and `new Date()` (in timestamps). */
module HelpDesk {
  import opened Seqs
  import opened Text
  import opened Types
  import opened Records
  import opened Store

  datatype TicketForm = TicketForm(title: string, description: string, category: string, priority: TicketPriority)

  const EmptyTicketForm := TicketForm("", "", "IT Support", TicketPriority.Medium)

  /** `user?.name || "User"` */
  function AuthorName(user: Option<User>): string
  {
    if user.Some? && user.value.name != "" then user.value.name else "User"
  }

  predicate TicketMatches(t: HelpTicket, query: string)
  {
    MatchesText(t.title, query) || MatchesText(t.description, query)
  }

  function FilteredTickets(s: seq<HelpTicket>, query: string): seq<HelpTicket>
  {
    Filter(s, t => TicketMatches(t, query))
  }

  function NewTicket(f: TicketForm, user: Option<User>, now: nat): HelpTicket
  {
    HelpTicket("ticket-" + NatToString(now), f.title, f.description, TicketStatus.Open, f.priority, f.category,
      AuthorName(user), now, now, [])
  }

  function Reply(content: string, user: Option<User>, now: nat): TicketResponse
  {
    TicketResponse("resp-" + NatToString(now), content, AuthorName(user), now, false)
  }

  /** `{ ...selectedTicket, responses: [...responses, reply], updatedAt }` */
  function WithReply(t: HelpTicket, content: string, user: Option<User>, now: nat): HelpTicket
  {
    t.(responses := t.responses + [Reply(content, user, now)], updatedAt := now)
  }

  /** `tickets.map(t => t.id === id ? updated : t)` */
  function ReplaceTicket(s: seq<HelpTicket>, id: string, updated: HelpTicket): seq<HelpTicket>
  {
    UpdateById(s, TicketId, id, _ => updated)
  }

  class Page {
    const user: Option<User>
    var tickets: seq<HelpTicket>
    var searchQuery: string
    var selected: Option<HelpTicket>
    var isCreateOpen: bool
    var isSubmitting: bool
    var newTicket: TicketForm
    var replyContent: string

    constructor (user: Option<User>, initial: seq<HelpTicket>)
      ensures this.user == user && tickets == initial && searchQuery == "" && selected.None?
      ensures !isCreateOpen && !isSubmitting && newTicket == EmptyTicketForm && replyContent == ""
    {
      this.user := user;
      tickets := initial;
      searchQuery := "";
      selected := None;
      isCreateOpen := false;
      isSubmitting := false;
      newTicket := EmptyTicketForm;
      replyContent := "";
    }

    method SetSearchQuery(q: string)
      modifies this`searchQuery
      ensures searchQuery == q
    {
      searchQuery := q;
    }

    method SelectTicket(t: HelpTicket)
      modifies this`selected
      ensures selected == Some(t)
    {
      selected := Some(t);
    }

    method SetCreateOpen(open: bool)
      modifies this`isCreateOpen
      ensures isCreateOpen == open
    {
      isCreateOpen := open;
    }

    method SetNewTicket(f: TicketForm)
      modifies this`newTicket
      ensures newTicket == f
    {
      newTicket := f;
    }

    method SetReplyContent(s: string)
      modifies this`replyContent
      ensures replyContent == s
    {
      replyContent := s;
    }

    /** `handleCreateTicket`: nothing happens without a title and a description;
        otherwise the new open ticket goes first and the dialog resets and closes. */
    method HandleCreateTicket(now: nat)
      modifies this`tickets, this`newTicket, this`isCreateOpen, this`isSubmitting
      ensures old(newTicket).title == "" || old(newTicket).description == "" ==>
        tickets == old(tickets) && newTicket == old(newTicket) && isCreateOpen == old(isCreateOpen) && isSubmitting == old(isSubmitting)
      ensures old(newTicket).title != "" && old(newTicket).description != "" ==>
        tickets == [NewTicket(old(newTicket), user, now)] + old(tickets)
        && newTicket == EmptyTicketForm && !isCreateOpen && !isSubmitting
    {
      if newTicket.title == "" || newTicket.description == "" {
        return;
      }
      isSubmitting := true;
      tickets := [NewTicket(newTicket, user, now)] + tickets;
      newTicket := EmptyTicketForm;
      isCreateOpen := false;
      isSubmitting := false;
    }

    /** `handleReply`: nothing happens for a blank reply or with no ticket selected;
        otherwise the reply is appended to the selected ticket, which replaces
        every listed ticket with its id and stays selected, and the box is cleared. */
    method HandleReply(now: nat)
      modifies this`tickets, this`selected, this`replyContent
      ensures Trim(old(replyContent)) == "" || old(selected).None? ==>
        tickets == old(tickets) && selected == old(selected) && replyContent == old(replyContent)
      ensures Trim(old(replyContent)) != "" && old(selected).Some? ==>
        var updated := WithReply(old(selected).value, old(replyContent), user, now);
        tickets == ReplaceTicket(old(tickets), old(selected).value.id, updated)
        && selected == Some(updated) && replyContent == ""
    {
      if Trim(replyContent) == "" || selected.None? {
        return;
      }
      var updated := WithReply(selected.value, replyContent, user, now);
      tickets := ReplaceTicket(tickets, selected.value.id, updated);
      selected := Some(updated);
      replyContent := "";
    }
  }

  /** A created ticket is open, has no responses, is signed by the user (or "User")
      and carries the form's fields. */
  lemma NewTicketSpec(f: TicketForm, user: Option<User>, now: nat)
    ensures var t := NewTicket(f, user, now);
      t.status == TicketStatus.Open && t.responses == [] && t.title == f.title && t.description == f.description
      && t.priority == f.priority && t.category == f.category
      && (user.Some? && user.value.name != "" ==> t.createdBy == user.value.name)
      && (user.None? ==> t.createdBy == "User")
  {
  }

  /** A reply appends exactly one non-staff response at the end, keeps the earlier
      ones, and the list changes only at the selected id. */
  lemma ReplySpec(s: seq<HelpTicket>, t: HelpTicket, content: string, user: Option<User>, now: nat)
    ensures var u := WithReply(t, content, user, now);
      |u.responses| == |t.responses| + 1 && u.responses[..|t.responses|] == t.responses
      && u.responses[|t.responses|].content == content && !u.responses[|t.responses|].isStaff
      && u.id == t.id && u.title == t.title && u.status == t.status
    ensures var r := ReplaceTicket(s, t.id, WithReply(t, content, user, now));
      |r| == |s|
      && (forall i :: 0 <= i < |s| && s[i].id == t.id ==> r[i] == WithReply(t, content, user, now))
      && (forall i :: 0 <= i < |s| && s[i].id != t.id ==> r[i] == s[i])
  {
    UpdateByIdSpec(s, TicketId, t.id, _ => WithReply(t, content, user, now));
  }

  /** A reply of only whitespace is ignored; any other is accepted. */
  lemma BlankReplyIgnored(content: string)
    ensures Trim(content) == "" <==> forall i :: 0 <= i < |content| ==> IsWhitespace(content[i])
  {
    TrimEmptyIffBlank(content);
  }

  /** The ticket search keeps, in order, exactly the tickets whose title or
      description contains the query case-insensitively; the empty query keeps all. */
  lemma FilteredTicketsSpec(s: seq<HelpTicket>, query: string)
    ensures forall t :: t in FilteredTickets(s, query) <==> t in s && TicketMatches(t, query)
    ensures IsSubsequence(FilteredTickets(s, query), s)
    ensures FilteredTickets(s, "") == s
  {
    forall t ensures t in FilteredTickets(s, query) <==> t in s && TicketMatches(t, query) {
      FilterMembership(s, t => TicketMatches(t, query), t);
    }
    FilterIsSubsequence(s, t => TicketMatches(t, query));
    forall t: HelpTicket ensures TicketMatches(t, "") {
      MatchesEmptyQuery(t.title);
    }
    FilterAll(s, t => TicketMatches(t, ""));
  }
}
