/** The portal's entities. The enumerations and the Announcement, Event,
    Notification and TeamsMessage records follow lib/types.ts; HelpTicket,
    Document, TeamsTeam/TeamsChannel, UserPreferences, ThemeMode and the extra
    User fields are the shapes their use sites in the store and the pages build.
    Timestamps are integers (milliseconds); an optional string field is a plain
    string whose empty value stands for "not set", the two being alike under the
    `||` fallbacks through which the portal reads them.

    A `Partial<T>` update is a record of `Option` fields; merging it is the
    object spread `{ ...t, ...updates }`: a supplied field wins, the rest stay. */
module Types {
  import opened Seqs

  datatype Role = Admin | Employee | Ceo
  datatype Priority = Urgent | Important | Event | Deadline | Ceo | General
  datatype Department = Engineering | Marketing | Sales | Hr | Finance | Operations | All
  datatype AnnouncementStatus = Pending | Approved | Rejected
  datatype Language = En | Ja
  datatype ThemeMode = Light | Dark | System
  datatype NotificationType = AnnouncementNotice | EventNotice | ReminderNotice | SystemNotice

  /** The string each enumeration value has on the wire and as a translation key. */
  function RoleName(r: Role): string
  {
    match r
    case Admin => "admin"
    case Employee => "employee"
    case Ceo => "ceo"
  }

  function PriorityName(p: Priority): string
  {
    match p
    case Urgent => "urgent"
    case Important => "important"
    case Event => "event"
    case Deadline => "deadline"
    case Ceo => "ceo"
    case General => "general"
  }

  function DepartmentName(d: Department): string
  {
    match d
    case Engineering => "engineering"
    case Marketing => "marketing"
    case Sales => "sales"
    case Hr => "hr"
    case Finance => "finance"
    case Operations => "operations"
    case All => "all"
  }

  function StatusName(s: AnnouncementStatus): string
  {
    match s
    case Pending => "pending"
    case Approved => "approved"
    case Rejected => "rejected"
  }

  /** Distinct values have distinct wire names, so comparing names is comparing values. */
  lemma WireNamesInjective(p: Priority, q: Priority, d: Department, e: Department, s: AnnouncementStatus, t: AnnouncementStatus)
    ensures PriorityName(p) == PriorityName(q) ==> p == q
    ensures DepartmentName(d) == DepartmentName(e) ==> d == e
    ensures StatusName(s) == StatusName(t) ==> s == t
  {
  }

  datatype Announcement = Announcement(
    id: string,
    title: string,
    titleJa: string,
    content: string,
    contentJa: string,
    priority: Priority,
    department: Department,
    status: AnnouncementStatus,
    author: string,
    authorId: string,
    createdAt: int,
    updatedAt: int,
    imageUrl: string,
    isAiGenerated: bool,
    aiOverridden: bool)

  datatype Event = Event(
    id: string,
    title: string,
    titleJa: string,
    description: string,
    descriptionJa: string,
    startDate: int,
    endDate: int,
    location: string,
    department: Department,
    priority: Priority,
    isRecurring: bool,
    recurrencePattern: string,
    reminderSent: bool,
    createdBy: string)

  datatype Notification = Notification(
    id: string,
    title: string,
    titleJa: string,
    message: string,
    messageJa: string,
    kind: NotificationType,
    isRead: bool,
    createdAt: int,
    link: string)

  datatype TeamsChannel = TeamsChannel(id: string, name: string, teamId: string)
  datatype TeamsTeam = TeamsTeam(id: string, name: string, channels: seq<TeamsChannel>)

  /** A Teams message. The shared type declares no sender id, channel id or
      team id, but the Teams page writes and reads all three, so they are fields
      here; `from`/`fromId` are called `sender`/`senderId`. */
  datatype TeamsMessage = TeamsMessage(
    id: string,
    content: string,
    sender: string,
    senderId: string,
    timestamp: int,
    channelName: string,
    channelId: string,
    teamId: string)

  datatype DocType = Folder | Pdf | Xlsx | Pptx | Doc | Image

  /** A document-library entry; a folder may carry its `children`. */
  datatype Document = Document(id: string, name: string, docType: DocType, isFolder: bool, children: Option<seq<Document>>)

  datatype TicketStatus = Open | InProgress | Resolved | Closed
  datatype TicketPriority = Low | Medium | High | Critical
  datatype TicketResponse = TicketResponse(id: string, content: string, author: string, createdAt: int, isStaff: bool)

  datatype HelpTicket = HelpTicket(
    id: string,
    title: string,
    description: string,
    status: TicketStatus,
    priority: TicketPriority,
    category: string,
    createdBy: string,
    createdAt: int,
    updatedAt: int,
    responses: seq<TicketResponse>)

  datatype UserPreferences = UserPreferences(
    theme: ThemeMode,
    language: Language,
    emailNotifications: bool,
    pushNotifications: bool,
    showBirthday: bool)

  datatype User = User(
    id: string,
    name: string,
    email: string,
    role: Role,
    department: Department,
    avatar: string,
    isAuthenticated: bool,
    jobTitle: string,
    location: string,
    phone: string,
    bio: string,
    preferences: UserPreferences)

  // ------------------------------------------------------------ Partial<T>

  function Pick<T>(update: Option<T>, current: T): T
  {
    if update.Some? then update.value else current
  }

  datatype AnnouncementUpdate = AnnouncementUpdate(
    id: Option<string>,
    title: Option<string>,
    titleJa: Option<string>,
    content: Option<string>,
    contentJa: Option<string>,
    priority: Option<Priority>,
    department: Option<Department>,
    status: Option<AnnouncementStatus>,
    author: Option<string>,
    authorId: Option<string>,
    createdAt: Option<int>,
    updatedAt: Option<int>,
    imageUrl: Option<string>,
    isAiGenerated: Option<bool>,
    aiOverridden: Option<bool>)

  const NoAnnouncementUpdate := AnnouncementUpdate(None, None, None, None, None, None, None, None, None, None, None, None, None, None, None)

  /** `{ ...a, ...u }` */
  function MergeAnnouncement(a: Announcement, u: AnnouncementUpdate): Announcement
  {
    Announcement.Announcement(
      Pick(u.id, a.id), Pick(u.title, a.title), Pick(u.titleJa, a.titleJa),
      Pick(u.content, a.content), Pick(u.contentJa, a.contentJa),
      Pick(u.priority, a.priority), Pick(u.department, a.department), Pick(u.status, a.status),
      Pick(u.author, a.author), Pick(u.authorId, a.authorId),
      Pick(u.createdAt, a.createdAt), Pick(u.updatedAt, a.updatedAt),
      Pick(u.imageUrl, a.imageUrl), Pick(u.isAiGenerated, a.isAiGenerated), Pick(u.aiOverridden, a.aiOverridden))
  }

  datatype EventUpdate = EventUpdate(
    id: Option<string>,
    title: Option<string>,
    titleJa: Option<string>,
    description: Option<string>,
    descriptionJa: Option<string>,
    startDate: Option<int>,
    endDate: Option<int>,
    location: Option<string>,
    department: Option<Department>,
    priority: Option<Priority>,
    isRecurring: Option<bool>,
    recurrencePattern: Option<string>,
    reminderSent: Option<bool>,
    createdBy: Option<string>)

  /** `{ ...e, ...u }` */
  function MergeEvent(e: Event, u: EventUpdate): Event
  {
    Event.Event(
      Pick(u.id, e.id), Pick(u.title, e.title), Pick(u.titleJa, e.titleJa),
      Pick(u.description, e.description), Pick(u.descriptionJa, e.descriptionJa),
      Pick(u.startDate, e.startDate), Pick(u.endDate, e.endDate), Pick(u.location, e.location),
      Pick(u.department, e.department), Pick(u.priority, e.priority),
      Pick(u.isRecurring, e.isRecurring), Pick(u.recurrencePattern, e.recurrencePattern),
      Pick(u.reminderSent, e.reminderSent), Pick(u.createdBy, e.createdBy))
  }

  datatype TicketUpdate = TicketUpdate(
    id: Option<string>,
    title: Option<string>,
    description: Option<string>,
    status: Option<TicketStatus>,
    priority: Option<TicketPriority>,
    category: Option<string>,
    createdBy: Option<string>,
    createdAt: Option<int>,
    updatedAt: Option<int>,
    responses: Option<seq<TicketResponse>>)

  /** `{ ...t, ...u }` */
  function MergeTicket(t: HelpTicket, u: TicketUpdate): HelpTicket
  {
    HelpTicket(
      Pick(u.id, t.id), Pick(u.title, t.title), Pick(u.description, t.description),
      Pick(u.status, t.status), Pick(u.priority, t.priority), Pick(u.category, t.category),
      Pick(u.createdBy, t.createdBy), Pick(u.createdAt, t.createdAt), Pick(u.updatedAt, t.updatedAt),
      Pick(u.responses, t.responses))
  }

  datatype UserUpdate = UserUpdate(
    id: Option<string>,
    name: Option<string>,
    email: Option<string>,
    role: Option<Role>,
    department: Option<Department>,
    avatar: Option<string>,
    isAuthenticated: Option<bool>,
    jobTitle: Option<string>,
    location: Option<string>,
    phone: Option<string>,
    bio: Option<string>,
    preferences: Option<UserPreferences>)

  /** `{ ...user, ...u }` */
  function MergeUser(user: User, u: UserUpdate): User
  {
    User(
      Pick(u.id, user.id), Pick(u.name, user.name), Pick(u.email, user.email),
      Pick(u.role, user.role), Pick(u.department, user.department), Pick(u.avatar, user.avatar),
      Pick(u.isAuthenticated, user.isAuthenticated), Pick(u.jobTitle, user.jobTitle),
      Pick(u.location, user.location), Pick(u.phone, user.phone), Pick(u.bio, user.bio),
      Pick(u.preferences, user.preferences))
  }

  datatype PreferencesUpdate = PreferencesUpdate(
    theme: Option<ThemeMode>,
    language: Option<Language>,
    emailNotifications: Option<bool>,
    pushNotifications: Option<bool>,
    showBirthday: Option<bool>)

  /** `{ ...prefs, ...u }` */
  function MergePreferences(p: UserPreferences, u: PreferencesUpdate): UserPreferences
  {
    UserPreferences(
      Pick(u.theme, p.theme), Pick(u.language, p.language),
      Pick(u.emailNotifications, p.emailNotifications), Pick(u.pushNotifications, p.pushNotifications),
      Pick(u.showBirthday, p.showBirthday))
  }

  /** A spread keeps exactly the fields the update leaves out, and spreading the same
      update twice is spreading it once. */
  lemma MergeAnnouncementLaws(a: Announcement, u: AnnouncementUpdate)
    ensures MergeAnnouncement(a, NoAnnouncementUpdate) == a
    ensures MergeAnnouncement(MergeAnnouncement(a, u), u) == MergeAnnouncement(a, u)
    ensures u.status.None? ==> MergeAnnouncement(a, u).status == a.status
    ensures u.id.None? ==> MergeAnnouncement(a, u).id == a.id
  {
  }
}
