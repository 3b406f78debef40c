/** The events endpoint of app/api/events/route.ts: GET narrows the mock
    events by department and, with `upcoming=true`, to those not yet started;
    POST builds a new event from the JSON body. The clock is a parameter. */
module ApiEvents {
  import opened Seqs
  import opened Text
  import opened Types
  import opened Api

  predicate DepartmentOk(e: Event, department: Option<string>)
  {
    !(Truthy(department) && department.value != "all")
    || DepartmentName(e.department) == department.value || e.department == Department.All
  }

  /** Only the exact string `"true"` switches the date filter on. */
  predicate UpcomingOk(e: Event, upcoming: Option<string>, now: int)
  {
    upcoming != Some("true") || e.startDate >= now
  }

  predicate QueryMatches(e: Event, department: Option<string>, upcoming: Option<string>, now: int)
  {
    DepartmentOk(e, department) && UpcomingOk(e, upcoming, now)
  }

  function Query(source: seq<Event>, department: Option<string>, upcoming: Option<string>, now: int): seq<Event>
  {
    Filter(source, e => QueryMatches(e, department, upcoming, now))
  }

  method Get(source: seq<Event>, department: Option<string>, upcoming: Option<string>, now: int)
    returns (events: seq<Event>)
    ensures events == Query(source, department, upcoming, now)
  {
    events := source;
    if Truthy(department) && department.value != "all" {
      events := Filter(events, (e: Event) => DepartmentName(e.department) == department.value || e.department == Department.All);
      FilterExt(source, (e: Event) => DepartmentName(e.department) == department.value || e.department == Department.All,
        e => DepartmentOk(e, department));
    } else {
      FilterAll(source, e => DepartmentOk(e, department));
    }
    assert events == Filter(source, e => DepartmentOk(e, department));

    if upcoming == Some("true") {
      var keep := (e: Event) => e.startDate >= now;
      events := Filter(events, keep);
      FilterFilter(source, e => DepartmentOk(e, department), keep, e => QueryMatches(e, department, upcoming, now));
    } else {
      FilterExt(source, e => DepartmentOk(e, department), e => QueryMatches(e, department, upcoming, now));
    }
  }

  /** The result holds exactly the matching events in source order; `upcoming`
      other than `"true"` and a missing or `all` department leave the list whole. */
  lemma QuerySpec(source: seq<Event>, department: Option<string>, upcoming: Option<string>, now: int)
    ensures forall e :: e in Query(source, department, upcoming, now) <==> e in source && QueryMatches(e, department, upcoming, now)
    ensures IsSubsequence(Query(source, department, upcoming, now), source)
    ensures upcoming == Some("true") ==> forall e :: e in Query(source, department, upcoming, now) ==> e.startDate >= now
    ensures upcoming != Some("true") && (!Truthy(department) || department.value == "all") ==>
      Query(source, department, upcoming, now) == source
  {
    forall e ensures e in Query(source, department, upcoming, now) <==> e in source && QueryMatches(e, department, upcoming, now) {
      FilterMembership(source, e => QueryMatches(e, department, upcoming, now), e);
    }
    FilterIsSubsequence(source, e => QueryMatches(e, department, upcoming, now));
    if upcoming != Some("true") && (!Truthy(department) || department.value == "all") {
      FilterAll(source, e => QueryMatches(e, department, upcoming, now));
    }
  }

  /** A department other than `all` keeps exactly that department's and the `all` events. */
  lemma DepartmentByValue(e: Event, d: Department)
    requires d != Department.All
    ensures DepartmentOk(e, Some(DepartmentName(d))) <==> e.department == d || e.department == Department.All
  {
    WireNamesInjective(Priority.General, Priority.General, e.department, d, AnnouncementStatus.Pending, AnnouncementStatus.Pending);
  }

  /** The JSON fields POST reads (absent strings empty, absent flags false). */
  datatype PostBody = PostBody(
    title: string,
    titleJa: string,
    description: string,
    descriptionJa: string,
    startDate: int,
    endDate: int,
    location: string,
    department: Option<Department>,
    priority: Option<Priority>,
    isRecurring: bool,
    recurrencePattern: string,
    createdBy: string)

  function NewEvent(b: PostBody, now: nat): Event
  {
    Event.Event(
      NatToString(now), b.title, b.titleJa, b.description, b.descriptionJa, b.startDate, b.endDate, b.location,
      Pick(b.department, Department.All), Pick(b.priority, Priority.General), b.isRecurring,
      b.recurrencePattern, false, if b.createdBy != "" then b.createdBy else "System")
  }

  /** POST: 201 with the new event, or 400 when the body does not parse. Dates
      are copied as given: nothing checks that the end is not before the start. */
  function Post(body: Body<PostBody>, now: nat): (r: Response<Event>)
    ensures r.Code() == 201 <==> body.Parsed?
    ensures body.Malformed? ==> r == Failure(400, "Invalid request body")
    ensures body.Parsed? ==> r.Ok? && !r.value.reminderSent
  {
    match body
    case Malformed => Failure(400, "Invalid request body")
    case Parsed(b) => Ok(201, NewEvent(b, now))
  }

  lemma PostDefaults(b: PostBody, now: nat)
    ensures var e := NewEvent(b, now);
      (b.department.None? ==> e.department == Department.All)
      && (b.department.Some? ==> e.department == b.department.value)
      && (b.priority.None? ==> e.priority == Priority.General)
      && (b.priority.Some? ==> e.priority == b.priority.value)
      && (b.createdBy == "" ==> e.createdBy == "System") && (b.createdBy != "" ==> e.createdBy == b.createdBy)
      && e.isRecurring == b.isRecurring && !e.reminderSent
      && e.startDate == b.startDate && e.endDate == b.endDate && e.id == NatToString(now)
  {
  }
}
