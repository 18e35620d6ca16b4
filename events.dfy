/**
 * The decisions the event pages take, on values: when an event is over,
 * when an RSVP is recorded, who may edit an event, what a new event looks
 * like, and which filters a search applies.
 */
module Events {
  import opened Base

  /** An event record. */
  datatype Event = Event(
    id: EventId,
    creator: UserId,
    title: string,
    startDate: Time,
    endDate: Option<Time>,
    location: string)

  /**
   * The editable columns of an event as the event form cleans them: the
   * cleaned value of each field that passed validation, None for a field
   * that failed.
   */
  datatype EventFields = EventFields(
    title: Option<string>,
    startDate: Option<Time>,
    endDate: Option<Option<Time>>,
    location: Option<string>)

  /** One RSVP: who comes to which event, with how many guests and a note. */
  datatype Attendance = Attendance(user: UserId, eventId: EventId, guests: int, message: string)

  /** The cleaned data of the RSVP form. */
  datatype AttendData = AttendData(guests: int, message: string)

  datatype HttpMethod = Get | Post | OtherMethod

  /**
   * A request to a page: its HTTP method, who sends it, and what the page's form
   * made of the submitted data (whether it validated, and the cleaned values).
   * `user` and `isStaff` only mean something when `authenticated` holds.
   */
  datatype Request<D> = Request(
    verb: HttpMethod,
    authenticated: bool,
    user: UserId,
    isStaff: bool,
    formValid: bool,
    cleaned: D)

  /** A form as a page shows it: empty, filled from a record, or bound to submitted data. */
  datatype Form<D> = Unbound | Initial(data: D) | Bound(data: D, valid: bool)

  /** The event form filled from `e`: every field holds the event's value. */
  function FieldsOf(e: Event): (f: EventFields)
  {
    EventFields(Some(e.title), Some(e.startDate), Some(e.endDate), Some(e.location))
  }

  /** Whether `e` holds the cleaned value of every field of `f` that passed validation. */
  predicate Carries(e: Event, f: EventFields)
  {
    && (f.title.Some? ==> e.title == f.title.value)
    && (f.startDate.Some? ==> e.startDate == f.startDate.value)
    && (f.endDate.Some? ==> e.endDate == f.endDate.value)
    && (f.location.Some? ==> e.location == f.location.value)
  }

  /**
   * `e` with the cleaned value of every field of `f` that passed validation
   * copied in, as the event form does while it validates.
   */
  function Apply(e: Event, f: EventFields): (r: Event)
    // the key and the creator are not form fields and stay
    ensures r.id == e.id && r.creator == e.creator
    // every field that passed validation now holds its cleaned value
    ensures Carries(r, f)
    // every field that failed keeps the event's value
    ensures f.title.None? ==> r.title == e.title
    ensures f.startDate.None? ==> r.startDate == e.startDate
    ensures f.endDate.None? ==> r.endDate == e.endDate
    ensures f.location.None? ==> r.location == e.location
    // copying values the event already holds changes nothing
    ensures Carries(e, f) ==> r == e
  {
    e.(title := if f.title.Some? then f.title.value else e.title,
       startDate := if f.startDate.Some? then f.startDate.value else e.startDate,
       endDate := if f.endDate.Some? then f.endDate.value else e.endDate,
       location := if f.location.Some? then f.location.value else e.location)
  }

  /** The position of the event with key `id` in `events`, if there is one. */
  function Find(events: seq<Event>, id: EventId): (r: Option<nat>)
    ensures r.Some? ==> r.value < |events| && events[r.value].id == id
    ensures r.None? ==> forall i :: 0 <= i < |events| ==> events[i].id != id
    decreases |events|
  {
    if events == [] then None
    else if events[0].id == id then Some(0)
    else match Find(events[1..], id)
      case None => None
      case Some(k) => Some(k + 1)
  }

  /** Whether the event is over: its end, or its start when it has no end, lies strictly before `now`. */
  function Finished(e: Event, now: Time): (r: bool)
    // an event ending exactly now is still on
    ensures e.endDate == Some(now) ==> !r
    // the start date only counts when there is no end date
    ensures e.endDate.Some? ==> (r <==> e.endDate.value < now)
    ensures e.endDate.None? ==> (r <==> e.startDate < now)
  {
    if e.endDate.Some? then e.endDate.value < now else e.startDate < now
  }

  /** Once over, an event stays over. */
  lemma FinishedStays(e: Event, now: Time, later: Time)
    requires now <= later && Finished(e, now)
    ensures Finished(e, later)
  {
  }

  /** Whether the detail page takes an RSVP submission: the event is on, and a signed-in user posted. */
  predicate RsvpOpen(e: Event, req: Request<AttendData>, now: Time)
  {
    !Finished(e, now) && req.verb == Post && req.authenticated
  }

  /** What the detail page does with a request: the form it shows and the RSVP it records. */
  datatype Rsvp = Rsvp(form: Form<AttendData>, attendance: Option<Attendance>)

  function RsvpFor(e: Event, req: Request<AttendData>, now: Time): (r: Rsvp)
    // an RSVP is recorded exactly when the event is on, a signed-in user posted and the form is valid
    ensures r.attendance.Some? <==> !Finished(e, now) && req.verb == Post && req.authenticated && req.formValid
    ensures r.attendance.Some? ==>
      r.attendance.value == Attendance(req.user, e.id, req.cleaned.guests, req.cleaned.message)
    // when the page does not take the submission, it shows an empty form
    ensures r.form == Unbound <==> !RsvpOpen(e, req, now)
    ensures RsvpOpen(e, req, now) ==> r.form == Bound(req.cleaned, req.formValid)
  {
    if RsvpOpen(e, req, now) then
      var attendance :=
        if req.formValid then Some(Attendance(req.user, e.id, req.cleaned.guests, req.cleaned.message))
        else None;
      Rsvp(Bound(req.cleaned, req.formValid), attendance)
    else
      Rsvp(Unbound, None)
  }

  /** What the edit page does with a request from a signed-in user. */
  datatype Edit = Denied | Saved(event: Event) | ShowForm(shown: Event, form: Form<EventFields>)

  /** Whether the requesting user may edit `e`: the creator may, and so may staff. */
  predicate MayEdit(e: Event, req: Request<EventFields>)
  {
    e.creator == req.user || req.isStaff
  }

  function EditFor(e: Event, req: Request<EventFields>): (r: Edit)
    // refused exactly when the user is neither the creator nor staff
    ensures r.Denied? <==> !MayEdit(e, req)
    // saved exactly when permitted and a valid form was posted; the key and creator are kept
    ensures r.Saved? <==> MayEdit(e, req) && req.verb == Post && req.formValid
    ensures r.Saved? ==>
      && r.event == Apply(e, req.cleaned)
      && r.event.id == e.id && r.event.creator == e.creator && Carries(r.event, req.cleaned)
    // an invalid post shows the submitted data again, beside the event with the
    // fields that did validate already copied in (in memory only, Django 1.2 to 1.4)
    ensures r.ShowForm? && req.verb == Post ==> r.form == Bound(req.cleaned, false) && r.shown == Apply(e, req.cleaned)
    // any other method shows the event as it is
    ensures r.ShowForm? && req.verb != Post ==> r.form == Initial(FieldsOf(e)) && r.shown == e
  {
    if !MayEdit(e, req) then Denied
    else if req.verb == Post then
      var edited := Apply(e, req.cleaned);
      if req.formValid then Saved(edited) else ShowForm(edited, Bound(req.cleaned, false))
    else ShowForm(e, Initial(FieldsOf(e)))
  }

  /** What the new-event page does with a request from a signed-in user. */
  datatype Create = Created(event: Event) | ShowBlank(form: Form<EventFields>)

  /** The event a valid post creates under key `id`, or the form shown again. */
  function CreateFor(id: EventId, req: Request<EventFields>): (r: Create)
    ensures r.Created? <==> req.verb == Post && req.formValid
    // the creator is the requesting user, whatever the form held
    ensures r.Created? ==> r.event.creator == req.user && r.event.id == id && Carries(r.event, req.cleaned)
    ensures r.ShowBlank? ==> r.form == if req.verb == Post then Bound(req.cleaned, false) else Unbound
  {
    if req.verb == Post then
      if req.formValid then
        var unsaved := Event(id, 0, "", 0, None, "");
        Created(Apply(unsaved, req.cleaned).(creator := req.user))
      else ShowBlank(Bound(req.cleaned, false))
    else ShowBlank(Unbound)
  }

  /** How many upcoming events the search page lists beside the results. */
  const UpcomingShown: nat := 5

  /**
   * A search request: whether its query string is non-empty, whether the
   * search form validated, and the cleaned values of its fields (meaningful
   * only when it validated).
   */
  datatype SearchQuery = SearchQuery(
    nonEmpty: bool,
    formValid: bool,
    name: string,
    location: string,
    locationRange: int)

  /** Why the search page fails: an invalid form keeps no cleaned data to read. */
  datatype SearchFailure = NoCleanedData

  /** One filter of the result query, applied in order. */
  datatype Filter = FutureOnly | TitleContains(name: string) | WithinMiles(location: string, miles: int)

  /** The search page: the upcoming events, and the result query when a search was made. */
  datatype SearchPage = SearchPage(eventList: seq<Event>, results: Option<seq<Filter>>)

  /**
   * The search page for `q`, given the future events in the order the store
   * lists them. The page reads the form's cleaned data without checking that
   * the form validated, so an invalid search fails.
   */
  function Search(q: SearchQuery, future: seq<Event>): (r: Result<SearchPage, SearchFailure>)
    ensures r.Ok? ==> |r.value.eventList| <= UpcomingShown
    ensures r.Ok? ==> r.value.eventList == future[..if |future| < UpcomingShown then |future| else UpcomingShown]
    ensures r.Err? <==> q.nonEmpty && !q.formValid
    ensures r.Ok? ==> (r.value.results.Some? <==> q.nonEmpty)
    ensures r.Ok? && q.nonEmpty ==>
      var fs := r.value.results.value;
      && |fs| >= 1 && fs[0] == FutureOnly
      && (TitleContains(q.name) in fs <==> q.name != "")
      && (WithinMiles(q.location, q.locationRange) in fs <==> q.location != "")
      && |fs| == 1 + (if q.name != "" then 1 else 0) + (if q.location != "" then 1 else 0)
  {
    var upcoming := future[..if |future| < UpcomingShown then |future| else UpcomingShown];
    if !q.nonEmpty then Ok(SearchPage(upcoming, None))
    else if !q.formValid then Err(NoCleanedData)
    else
      var byName := if q.name != "" then [TitleContains(q.name)] else [];
      var byPlace := if q.location != "" then [WithinMiles(q.location, q.locationRange)] else [];
      Ok(SearchPage(upcoming, Some([FutureOnly] + byName + byPlace)))
  }
}
