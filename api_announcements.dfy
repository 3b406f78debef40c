/** The announcements endpoint of app/api/announcements/route.ts. GET narrows
    a copy of the mock list by up to three optional query parameters, one
    `if` after another; POST builds a new record from the JSON body. */
module ApiAnnouncements {
  import opened Seqs
  import opened Text
  import opened Types
  import opened Api

  /** `if (priority)`: only that priority. */
  predicate PriorityOk(a: Announcement, priority: Option<string>)
  {
    !Truthy(priority) || PriorityName(a.priority) == priority.value
  }

  /** `if (department && department !== "all")`: that department or `all`. */
  predicate DepartmentOk(a: Announcement, department: Option<string>)
  {
    !(Truthy(department) && department.value != "all")
    || DepartmentName(a.department) == department.value || a.department == Department.All
  }

  /** `if (status)`: only that status. */
  predicate StatusOk(a: Announcement, status: Option<string>)
  {
    !Truthy(status) || StatusName(a.status) == status.value
  }

  predicate QueryMatches(a: Announcement, priority: Option<string>, department: Option<string>, status: Option<string>)
  {
    PriorityOk(a, priority) && DepartmentOk(a, department) && StatusOk(a, status)
  }

  /** The three filters in one: the records satisfying every supplied parameter, in source order. */
  function Query(source: seq<Announcement>, priority: Option<string>, department: Option<string>, status: Option<string>): seq<Announcement>
  {
    Filter(source, a => QueryMatches(a, priority, department, status))
  }

  /** GET, as the handler runs it: each supplied parameter narrows the current list. */
  method Get(source: seq<Announcement>, priority: Option<string>, department: Option<string>, status: Option<string>)
    returns (announcements: seq<Announcement>)
    ensures announcements == Query(source, priority, department, status)
  {
    announcements := source;
    if Truthy(priority) {
      announcements := Filter(announcements, (a: Announcement) => PriorityName(a.priority) == priority.value);
      FilterExt(source, (a: Announcement) => PriorityName(a.priority) == priority.value, a => PriorityOk(a, priority));
    } else {
      FilterAll(source, a => PriorityOk(a, priority));
    }
    assert announcements == Filter(source, a => PriorityOk(a, priority));

    if Truthy(department) && department.value != "all" {
      var keep := (a: Announcement) => DepartmentName(a.department) == department.value || a.department == Department.All;
      announcements := Filter(announcements, keep);
      FilterFilter(source, a => PriorityOk(a, priority), keep, a => PriorityOk(a, priority) && DepartmentOk(a, department));
    } else {
      FilterExt(source, a => PriorityOk(a, priority), a => PriorityOk(a, priority) && DepartmentOk(a, department));
    }
    assert announcements == Filter(source, a => PriorityOk(a, priority) && DepartmentOk(a, department));

    if Truthy(status) {
      var keep := (a: Announcement) => StatusName(a.status) == status.value;
      announcements := Filter(announcements, keep);
      FilterFilter(source, a => PriorityOk(a, priority) && DepartmentOk(a, department), keep, a => QueryMatches(a, priority, department, status));
    } else {
      FilterExt(source, a => PriorityOk(a, priority) && DepartmentOk(a, department), a => QueryMatches(a, priority, department, status));
    }
  }

  /** The GET result holds exactly the records matching every supplied parameter,
      in source order; with no usable parameter it is the whole list. */
  lemma QuerySpec(source: seq<Announcement>, priority: Option<string>, department: Option<string>, status: Option<string>)
    ensures forall a :: a in Query(source, priority, department, status) <==> a in source && QueryMatches(a, priority, department, status)
    ensures IsSubsequence(Query(source, priority, department, status), source)
    ensures !Truthy(priority) && !Truthy(status) && (!Truthy(department) || department.value == "all") ==>
      Query(source, priority, department, status) == source
  {
    forall a ensures a in Query(source, priority, department, status) <==> a in source && QueryMatches(a, priority, department, status) {
      FilterMembership(source, a => QueryMatches(a, priority, department, status), a);
    }
    FilterIsSubsequence(source, a => QueryMatches(a, priority, department, status));
    if !Truthy(priority) && !Truthy(status) && (!Truthy(department) || department.value == "all") {
      FilterAll(source, a => QueryMatches(a, priority, department, status));
    }
  }

  /** A parameter naming a value keeps exactly the records with that value; a
      department other than `all` also keeps the `all` records. */
  lemma ParametersByValue(a: Announcement, p: Priority, d: Department, s: AnnouncementStatus)
    ensures PriorityOk(a, Some(PriorityName(p))) <==> a.priority == p
    ensures StatusOk(a, Some(StatusName(s))) <==> a.status == s
    ensures d != Department.All ==> (DepartmentOk(a, Some(DepartmentName(d))) <==> a.department == d || a.department == Department.All)
    ensures DepartmentOk(a, Some("all"))
  {
    WireNamesInjective(a.priority, p, a.department, d, a.status, s);
  }

  /** The JSON fields POST reads; absent strings are empty, an absent or empty
      priority or department is `None`. Any other field, `status` among them, is ignored. */
  datatype PostBody = PostBody(
    title: string,
    titleJa: string,
    content: string,
    contentJa: string,
    priority: Option<Priority>,
    department: Option<Department>,
    author: string,
    authorId: string,
    imageUrl: string,
    isAiGenerated: bool)

  function OrDefault(s: string, default: string): string
  {
    if s != "" then s else default
  }

  function NewAnnouncement(b: PostBody, now: nat): Announcement
  {
    Announcement.Announcement(
      NatToString(now), b.title, b.titleJa, b.content, b.contentJa,
      Pick(b.priority, Priority.General), Pick(b.department, Department.All), AnnouncementStatus.Pending,
      OrDefault(b.author, "System"), OrDefault(b.authorId, "system"), now, now, b.imageUrl, b.isAiGenerated, false)
  }

  /** POST: 201 with the new record, or 400 when the body does not parse. */
  function Post(body: Body<PostBody>, now: nat): (r: Response<Announcement>)
    ensures r.Code() == 201 <==> body.Parsed?
    ensures body.Malformed? ==> r == Failure(400, "Invalid request body")
    ensures body.Parsed? ==> r.Ok? && r.value.status == AnnouncementStatus.Pending && !r.value.aiOverridden
  {
    match body
    case Malformed => Failure(400, "Invalid request body")
    case Parsed(b) => Ok(201, NewAnnouncement(b, now))
  }

  /** The fallbacks of a posted record, and its copy of the other fields. */
  lemma PostDefaults(b: PostBody, now: nat)
    ensures var a := NewAnnouncement(b, now);
      (b.priority.None? ==> a.priority == Priority.General)
      && (b.priority.Some? ==> a.priority == b.priority.value)
      && (b.department.None? ==> a.department == Department.All)
      && (b.department.Some? ==> a.department == b.department.value)
      && (b.author == "" ==> a.author == "System") && (b.author != "" ==> a.author == b.author)
      && (b.authorId == "" ==> a.authorId == "system") && (b.authorId != "" ==> a.authorId == b.authorId)
      && a.title == b.title && a.content == b.content && a.isAiGenerated == b.isAiGenerated
      && a.id == NatToString(now) && a.createdAt == now && a.updatedAt == now
  {
  }
}
