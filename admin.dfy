/** The moderation workflow of app/admin/page.tsx. The page keeps its own
    announcement list (seeded from the mock data, a parameter here), the
    announcement being edited and whether the form dialog is open. Only
    viewers with role admin or ceo get the panel; everyone else sees an
    access-denied message and no handler is reachable. */
module Admin {
  import opened Seqs
  import opened Text
  import opened Types
  import opened Records
  import opened Auth
  import opened Store
  import opened AdminTable

  const ModeratorRoles: seq<Role> := [Role.Admin, Role.Ceo]

  datatype Screen = AccessDenied(message: string) | Panel

  /** The role gate at the top of the page. */
  function ScreenFor(viewer: Option<User>, lang: Language): (s: Screen)
    ensures s.Panel? <==> viewer.Some? && (viewer.value.role == Role.Admin || viewer.value.role == Role.Ceo)
    ensures s.AccessDenied? ==> s.message == (if lang == Language.Ja then "アクセス権限がありません" else "Access denied")
  {
    if !HasRole(viewer, ModeratorRoles) then
      AccessDenied(if lang == Language.Ja then "アクセス権限がありません" else "Access denied")
    else Panel
  }

  /** The record a submit without an editing target creates: fields from the
      payload with their fallbacks, author "Admin", and always pending. */
  function NewAnnouncement(data: AnnouncementUpdate, now: nat): (a: Announcement)
    ensures a.status == AnnouncementStatus.Pending && !a.aiOverridden
    ensures a.id == NatToString(now) && a.createdAt == now && a.updatedAt == now
    ensures a.author == "Admin" && a.authorId == "admin-1"
    ensures data.priority.None? ==> a.priority == Priority.General
    ensures data.department.None? ==> a.department == Department.All
    ensures data.isAiGenerated.None? ==> !a.isAiGenerated
    ensures data.title.None? ==> a.title == ""
  {
    Announcement.Announcement(
      NatToString(now), Pick(data.title, ""), Pick(data.titleJa, ""), Pick(data.content, ""), Pick(data.contentJa, ""),
      Pick(data.priority, Priority.General), Pick(data.department, Department.All), AnnouncementStatus.Pending,
      "Admin", "admin-1", now, now, Pick(data.imageUrl, ""), Pick(data.isAiGenerated, false), false)
  }

  /** A submit with an editing target: `{ ...a, ...data, updatedAt: now }` on the target's id. */
  function EditAnnouncements(s: seq<Announcement>, id: string, data: AnnouncementUpdate, now: int): seq<Announcement>
  {
    UpdateAnnouncements(s, id, data.(updatedAt := Some(now)))
  }

  /** `{ ...a, status }` on the records with that id. */
  function SetStatus(s: seq<Announcement>, id: string, status: AnnouncementStatus): seq<Announcement>
  {
    UpdateById(s, AnnouncementId, id, (a: Announcement) => a.(status := status))
  }

  /** The list shown under a status tab. */
  function Tab(s: seq<Announcement>, status: AnnouncementStatus): seq<Announcement>
  {
    Filter(s, (a: Announcement) => a.status == status)
  }

  function StatusCount(s: seq<Announcement>, status: AnnouncementStatus): nat
  {
    Count(s, (a: Announcement) => a.status == status)
  }

  function AiGeneratedCount(s: seq<Announcement>): nat
  {
    Count(s, (a: Announcement) => a.isAiGenerated)
  }

  class AdminPage {
    const viewer: Option<User>
    var announcements: seq<Announcement>
    var editing: Option<Announcement>
    var isFormOpen: bool

    constructor (viewer: Option<User>, initial: seq<Announcement>)
      ensures this.viewer == viewer && announcements == initial && editing.None? && !isFormOpen
    {
      this.viewer := viewer;
      announcements := initial;
      editing := None;
      isFormOpen := false;
    }

    /** `handleSubmit`: an edit merges into the target's id, a create prepends a
        fresh pending record; either way the dialog closes. */
    method HandleSubmit(data: AnnouncementUpdate, now: nat)
      requires ScreenFor(viewer, Language.En).Panel?
      modifies this`announcements, this`editing, this`isFormOpen
      ensures old(editing).Some? ==> announcements == EditAnnouncements(old(announcements), old(editing).value.id, data, now)
      ensures old(editing).None? ==> announcements == [NewAnnouncement(data, now)] + old(announcements)
      ensures editing.None? && !isFormOpen
    {
      if editing.Some? {
        announcements := EditAnnouncements(announcements, editing.value.id, data, now);
      } else {
        announcements := [NewAnnouncement(data, now)] + announcements;
      }
      isFormOpen := false;
      editing := None;
    }

    method HandleEdit(a: Announcement)
      requires ScreenFor(viewer, Language.En).Panel?
      modifies this`editing, this`isFormOpen
      ensures editing == Some(a) && isFormOpen
    {
      editing := Some(a);
      isFormOpen := true;
    }

    /** The form's cancel button. */
    method HandleCancel()
      requires ScreenFor(viewer, Language.En).Panel?
      modifies this`editing, this`isFormOpen
      ensures editing.None? && !isFormOpen
    {
      isFormOpen := false;
      editing := None;
    }

    /** `onOpenChange={setIsFormOpen}`: the Create trigger, Escape and the
        overlay only open or close the dialog. The editing target is kept, so
        after a dismissal the Create button reopens the form on the record last
        edited, and submitting it edits that record. */
    method SetFormOpen(open: bool)
      requires ScreenFor(viewer, Language.En).Panel?
      modifies this`isFormOpen
      ensures isFormOpen == open
    {
      isFormOpen := open;
    }

    method HandleDelete(id: string)
      requires ScreenFor(viewer, Language.En).Panel?
      modifies this`announcements
      ensures announcements == DeleteAnnouncements(old(announcements), id)
    {
      announcements := DeleteAnnouncements(announcements, id);
    }

    method HandleApprove(id: string)
      requires ScreenFor(viewer, Language.En).Panel?
      modifies this`announcements
      ensures announcements == SetStatus(old(announcements), id, AnnouncementStatus.Approved)
    {
      announcements := SetStatus(announcements, id, AnnouncementStatus.Approved);
    }

    method HandleReject(id: string)
      requires ScreenFor(viewer, Language.En).Panel?
      modifies this`announcements
      ensures announcements == SetStatus(old(announcements), id, AnnouncementStatus.Rejected)
    {
      announcements := SetStatus(announcements, id, AnnouncementStatus.Rejected);
    }
  }

  // ------------------------------------------------------------ lemmas

  /** The gate does not depend on the language, only on the role. */
  lemma GateIgnoresLanguage(viewer: Option<User>)
    ensures ScreenFor(viewer, Language.En).Panel? == ScreenFor(viewer, Language.Ja).Panel?
    ensures ScreenFor(viewer, Language.En).Panel? == HasRole(viewer, ModeratorRoles)
  {
  }

  /** A create is pending whatever status, author or override flag the payload carries. */
  lemma CreateForcesModeration(data: AnnouncementUpdate, now: nat, status: AnnouncementStatus, author: string, overridden: bool)
    ensures NewAnnouncement(data.(status := Some(status), author := Some(author), aiOverridden := Some(overridden)), now)
         == NewAnnouncement(data, now)
  {
  }

  /** An edit rewrites only the target's records, keeps the length and, when the
      payload carries no status (the form never sends one), every status. */
  lemma EditSpec(s: seq<Announcement>, id: string, data: AnnouncementUpdate, now: int)
    ensures |EditAnnouncements(s, id, data, now)| == |s|
    ensures forall i :: 0 <= i < |s| && s[i].id == id ==>
      EditAnnouncements(s, id, data, now)[i] == MergeAnnouncement(s[i], data).(updatedAt := now)
    ensures forall i :: 0 <= i < |s| && s[i].id != id ==> EditAnnouncements(s, id, data, now)[i] == s[i]
    ensures data.status.None? ==> forall i :: 0 <= i < |s| ==> EditAnnouncements(s, id, data, now)[i].status == s[i].status
  {
    UpdateAnnouncementsSpec(s, id, data.(updatedAt := Some(now)));
  }

  /** Approving or rejecting sets the status of exactly the records with that id,
      touches no other field, and is idempotent. */
  lemma SetStatusSpec(s: seq<Announcement>, id: string, status: AnnouncementStatus)
    ensures |SetStatus(s, id, status)| == |s|
    ensures forall i :: 0 <= i < |s| && s[i].id == id ==> SetStatus(s, id, status)[i] == s[i].(status := status)
    ensures forall i :: 0 <= i < |s| && s[i].id != id ==> SetStatus(s, id, status)[i] == s[i]
    ensures SetStatus(SetStatus(s, id, status), id, status) == SetStatus(s, id, status)
  {
    UpdateByIdSpec(s, AnnouncementId, id, (a: Announcement) => a.(status := status));
    UpdateByIdIdempotent(s, AnnouncementId, id, (a: Announcement) => a.(status := status));
  }

  /** The three status tabs split the full list: every record is in exactly the
      tab of its status, each tab keeps the list's order, the sizes add up, and
      the pending badge counts the pending tab. */
  lemma TabsPartition(s: seq<Announcement>)
    ensures |Tab(s, AnnouncementStatus.Pending)| + |Tab(s, AnnouncementStatus.Approved)| + |Tab(s, AnnouncementStatus.Rejected)| == |s|
    ensures forall a, st :: a in Tab(s, st) <==> a in s && a.status == st
    ensures forall st :: IsSubsequence(Tab(s, st), s)
    ensures forall st :: StatusCount(s, st) == |Tab(s, st)|
  {
    TabSizes(s);
    forall a, st ensures a in Tab(s, st) <==> a in s && a.status == st {
      FilterMembership(s, (a: Announcement) => a.status == st, a);
    }
    forall st ensures IsSubsequence(Tab(s, st), s) && StatusCount(s, st) == |Tab(s, st)| {
      FilterIsSubsequence(s, (a: Announcement) => a.status == st);
      FilterCount(s, (a: Announcement) => a.status == st);
    }
  }

  lemma {:induction false} TabSizes(s: seq<Announcement>)
    ensures |Tab(s, AnnouncementStatus.Pending)| + |Tab(s, AnnouncementStatus.Approved)| + |Tab(s, AnnouncementStatus.Rejected)| == |s|
  {
    if s != [] {
      TabSizes(s[1..]);
    }
  }

  /** What a row's menu item does to the page's list. Edit opens the form, whose
      submit with `payload` merges it into the row's id; Preview does nothing. */
  function ApplyRowAction(s: seq<Announcement>, row: Announcement, action: RowAction, payload: AnnouncementUpdate, now: int): seq<Announcement>
  {
    match action
    case EditAction => EditAnnouncements(s, row.id, payload, now)
    case PreviewAction => s
    case ApproveAction => SetStatus(s, row.id, AnnouncementStatus.Approved)
    case RejectAction => SetStatus(s, row.id, AnnouncementStatus.Rejected)
    case DeleteAction => DeleteAnnouncements(s, row.id)
  }

  /** Approved and rejected are terminal through the table: no action offered on a
      row that is not pending, with a status-free form payload, changes the status
      of any record (Delete removes records but changes none). */
  lemma SettledRowsStaySettled(s: seq<Announcement>, row: Announcement, action: RowAction, payload: AnnouncementUpdate, now: int)
    requires row.status != AnnouncementStatus.Pending
    requires action in Actions(row) && action != DeleteAction
    requires payload.status.None?
    ensures |ApplyRowAction(s, row, action, payload, now)| == |s|
    ensures forall i :: 0 <= i < |s| ==> ApplyRowAction(s, row, action, payload, now)[i].status == s[i].status
  {
    ActionsByStatus(row);
    if action == EditAction {
      EditSpec(s, row.id, payload, now);
    }
  }
}
