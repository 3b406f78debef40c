/** The create/edit form of components/admin/announcement-form.tsx: its
    fields, the simulated AI pre-fill of the Japanese fields, and the payload
    handed to the admin page on submit. */
module AnnouncementForm {
  import opened Seqs
  import opened Types

  /** The Select options offered by the form. */
  const Priorities: seq<Priority> := [Priority.Urgent, Priority.Important, Priority.Event, Priority.Deadline, Priority.Ceo, Priority.General]
  const Departments: seq<Department> := [Department.All, Department.Engineering, Department.Marketing, Department.Sales, Department.Hr, Department.Finance, Department.Operations]

  datatype FormData = FormData(
    title: string,
    titleJa: string,
    content: string,
    contentJa: string,
    priority: Priority,
    department: Department,
    imageUrl: string)

  const AiPrefix := "【AI生成】"

  /** The fields start from the edited announcement, or empty with priority
      `general` and department `all` when creating. */
  function InitialForm(announcement: Option<Announcement>): (f: FormData)
    ensures announcement.None? ==> f == FormData("", "", "", "", Priority.General, Department.All, "")
    ensures announcement.Some? ==>
      var a := announcement.value;
      f.title == a.title && f.titleJa == a.titleJa && f.content == a.content && f.contentJa == a.contentJa
      && f.priority == a.priority && f.department == a.department && f.imageUrl == a.imageUrl
  {
    match announcement
    case None => FormData("", "", "", "", Priority.General, Department.All, "")
    case Some(a) =>
      FormData(
        if a.title != "" then a.title else "",
        if a.titleJa != "" then a.titleJa else "",
        if a.content != "" then a.content else "",
        if a.contentJa != "" then a.contentJa else "",
        a.priority, a.department,
        if a.imageUrl != "" then a.imageUrl else "")
  }

  /** `handleAiGenerate`'s update: each Japanese field becomes the prefixed English
      one when that is non-empty. */
  function AiPrefilled(f: FormData): (g: FormData)
    ensures f.title != "" ==> g.titleJa == AiPrefix + f.title
    ensures f.title == "" ==> g.titleJa == f.titleJa
    ensures f.content != "" ==> g.contentJa == AiPrefix + f.content
    ensures f.content == "" ==> g.contentJa == f.contentJa
    ensures g.(titleJa := f.titleJa, contentJa := f.contentJa) == f
  {
    f.(contentJa := if f.content != "" then AiPrefix + f.content else f.contentJa,
       titleJa := if f.title != "" then AiPrefix + f.title else f.titleJa)
  }

  /** `{ ...formData, isAiGenerated: useAiGeneration }`: the seven form fields
      and the toggle; in particular never a status, an id, an author or a date. */
  function Payload(f: FormData, useAiGeneration: bool): (p: AnnouncementUpdate)
    ensures p.status.None? && p.id.None? && p.author.None? && p.authorId.None?
    ensures p.createdAt.None? && p.updatedAt.None? && p.aiOverridden.None?
    ensures p.isAiGenerated == Some(useAiGeneration)
  {
    AnnouncementUpdate(
      None, Some(f.title), Some(f.titleJa), Some(f.content), Some(f.contentJa),
      Some(f.priority), Some(f.department), None, None, None, None, None,
      Some(f.imageUrl), Some(useAiGeneration), None)
  }

  class Form {
    var formData: FormData
    var useAiGeneration: bool
    var isGenerating: bool

    constructor (announcement: Option<Announcement>)
      ensures formData == InitialForm(announcement) && !useAiGeneration && !isGenerating
    {
      formData := InitialForm(announcement);
      useAiGeneration := false;
      isGenerating := false;
    }

    method SetTitle(v: string)
      modifies this`formData
      ensures formData == old(formData).(title := v)
    {
      formData := formData.(title := v);
    }

    method SetTitleJa(v: string)
      modifies this`formData
      ensures formData == old(formData).(titleJa := v)
    {
      formData := formData.(titleJa := v);
    }

    method SetContent(v: string)
      modifies this`formData
      ensures formData == old(formData).(content := v)
    {
      formData := formData.(content := v);
    }

    method SetContentJa(v: string)
      modifies this`formData
      ensures formData == old(formData).(contentJa := v)
    {
      formData := formData.(contentJa := v);
    }

    method SetPriority(v: Priority)
      modifies this`formData
      ensures formData == old(formData).(priority := v)
    {
      formData := formData.(priority := v);
    }

    method SetDepartment(v: Department)
      modifies this`formData
      ensures formData == old(formData).(department := v)
    {
      formData := formData.(department := v);
    }

    method SetImageUrl(v: string)
      modifies this`formData
      ensures formData == old(formData).(imageUrl := v)
    {
      formData := formData.(imageUrl := v);
    }

    method SetUseAiGeneration(v: bool)
      modifies this`useAiGeneration
      ensures useAiGeneration == v
    {
      useAiGeneration := v;
    }

    /** The simulated generation: busy, then the pre-filled fields, then idle. */
    method HandleAiGenerate()
      modifies this`formData, this`isGenerating
      ensures formData == AiPrefilled(old(formData)) && !isGenerating
    {
      isGenerating := true;
      formData := AiPrefilled(formData);
      isGenerating := false;
    }

    /** The submit event. The browser's constraint validation fires no submit,
        and nothing is handed over, while the `required` title or content is
        empty or the `type="url"` image field holds a non-empty value that is
        not a valid URL. URL parsing is the browser's, so it is the parameter
        `isValidUrl`. Otherwise the payload of the fields and the toggle is
        handed over. The form's state is left as it is. */
    method HandleSubmit(isValidUrl: string -> bool) returns (payload: Option<AnnouncementUpdate>)
      ensures payload.None? <==>
        formData.title == "" || formData.content == "" || (formData.imageUrl != "" && !isValidUrl(formData.imageUrl))
      ensures payload.Some? ==> payload.value == Payload(formData, useAiGeneration)
      ensures payload.Some? ==> payload.value.status.None? && payload.value.title != Some("") && payload.value.content != Some("")
    {
      if formData.title == "" || formData.content == "" || (formData.imageUrl != "" && !isValidUrl(formData.imageUrl)) {
        payload := None;
      } else {
        payload := Some(Payload(formData, useAiGeneration));
      }
    }
  }

  /** Pre-filling twice is pre-filling once: the English fields it reads are left alone. */
  lemma AiPrefilledIdempotent(f: FormData)
    ensures AiPrefilled(AiPrefilled(f)) == AiPrefilled(f)
  {
  }

  /** Whatever the form holds, merging its payload keeps the record's moderation
      status, id, author and creation date. */
  lemma PayloadKeepsModeration(a: Announcement, f: FormData, useAiGeneration: bool)
    ensures MergeAnnouncement(a, Payload(f, useAiGeneration)).status == a.status
    ensures MergeAnnouncement(a, Payload(f, useAiGeneration)).id == a.id
    ensures MergeAnnouncement(a, Payload(f, useAiGeneration)).author == a.author
    ensures MergeAnnouncement(a, Payload(f, useAiGeneration)).createdAt == a.createdAt
  {
  }

  /** Opening an announcement in the form and submitting it untouched, with the
      toggle at its own AI flag, merges back to the same announcement. */
  lemma UntouchedEditRoundTrip(a: Announcement)
    ensures MergeAnnouncement(a, Payload(InitialForm(Some(a)), a.isAiGenerated)) == a
  {
  }

  /** The toggle starts off whatever announcement is opened, so an untouched edit
      submit clears the record's AI flag and changes nothing else. */
  lemma UntouchedEditClearsAiFlag(a: Announcement)
    ensures MergeAnnouncement(a, Payload(InitialForm(Some(a)), false)) == a.(isAiGenerated := false)
  {
  }

  /** The form lists every priority and every department, `all` included, once each. */
  lemma OptionListsComplete(p: Priority, d: Department)
    ensures p in Priorities && d in Departments
    ensures |Priorities| == 6 && |Departments| == 7
    ensures forall i, j :: 0 <= i < j < |Priorities| ==> Priorities[i] != Priorities[j]
    ensures forall i, j :: 0 <= i < j < |Departments| ==> Departments[i] != Departments[j]
  {
  }
}
