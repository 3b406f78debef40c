/** The moderation table of components/admin/admin-table.tsx, as the rows it
    renders: one per announcement, with its localised labels, the AI marker
    and the actions its menu offers. Colours and dates are presentation. */
module AdminTable {
  import opened Types
  import opened I18n

  datatype RowAction = EditAction | PreviewAction | ApproveAction | RejectAction | DeleteAction

  /** The sparkle beside an AI-generated announcement, muted once overridden. */
  datatype AiMarker = NoMarker | Sparkle(muted: bool)

  datatype Row = Row(
    id: string,
    title: string,
    priorityLabel: string,
    departmentLabel: string,
    statusLabel: string,
    ai: AiMarker,
    actions: seq<RowAction>)

  function DisplayTitle(a: Announcement, lang: Language): string
  {
    if lang == Language.Ja && a.titleJa != "" then a.titleJa else a.title
  }

  function DepartmentLabel(d: Department, lang: Language): string
  {
    if d == Department.All then T("allDepartments", lang) else T(DepartmentName(d), lang)
  }

  function Marker(a: Announcement): AiMarker
  {
    if a.isAiGenerated then Sparkle(a.aiOverridden) else NoMarker
  }

  /** Edit and Preview, then Approve and Reject for a pending row only, then Delete. */
  function Actions(a: Announcement): seq<RowAction>
  {
    [EditAction, PreviewAction]
    + (if a.status == AnnouncementStatus.Pending then [ApproveAction, RejectAction] else [])
    + [DeleteAction]
  }

  function RowOf(a: Announcement, lang: Language): Row
  {
    Row(a.id, DisplayTitle(a, lang), T(PriorityName(a.priority), lang), DepartmentLabel(a.department, lang),
        T(StatusName(a.status), lang), Marker(a), Actions(a))
  }

  /** `announcements.map(...)`: one row per announcement, in the given order. */
  function Rows(s: seq<Announcement>, lang: Language): (rows: seq<Row>)
    ensures |rows| == |s|
    ensures forall i :: 0 <= i < |s| ==> rows[i] == RowOf(s[i], lang) && rows[i].id == s[i].id
  {
    if s == [] then [] else [RowOf(s[0], lang)] + Rows(s[1..], lang)
  }

  /** Approve and Reject are offered exactly on pending rows; Edit, Preview and
      Delete on every row. */
  lemma ActionsByStatus(a: Announcement)
    ensures ApproveAction in Actions(a) <==> a.status == AnnouncementStatus.Pending
    ensures RejectAction in Actions(a) <==> a.status == AnnouncementStatus.Pending
    ensures EditAction in Actions(a) && PreviewAction in Actions(a) && DeleteAction in Actions(a)
  {
  }

  /** In Japanese a set Japanese title is shown; otherwise the English one. */
  lemma DisplayTitleChoice(a: Announcement, lang: Language)
    ensures lang == Language.En ==> DisplayTitle(a, lang) == a.title
    ensures lang == Language.Ja && a.titleJa != "" ==> DisplayTitle(a, lang) == a.titleJa
    ensures lang == Language.Ja && a.titleJa == "" ==> DisplayTitle(a, lang) == a.title
  {
  }

  /** Every label is the requested language's own table entry: the wire names of
      priorities and statuses, the departments' names and `allDepartments` are all table keys. */
  lemma LabelsTranslated(a: Announcement, lang: Language)
    ensures RowOf(a, lang).priorityLabel == Text(lang, PriorityName(a.priority)) != ""
    ensures RowOf(a, lang).statusLabel == Text(lang, StatusName(a.status)) != ""
    ensures a.department == Department.All ==> RowOf(a, lang).departmentLabel == Text(lang, "allDepartments")
    ensures a.department != Department.All ==> RowOf(a, lang).departmentLabel == Text(lang, DepartmentName(a.department)) != ""
  {
    TableKeyTranslates(PriorityName(a.priority), lang);
    TableKeyTranslates(StatusName(a.status), lang);
    TableKeyTranslates("allDepartments", lang);
    if a.department != Department.All {
      TableKeyTranslates(DepartmentName(a.department), lang);
    }
  }
}
