/**
 * The event pages that change the store: the detail page (which records
 * RSVPs), the edit page and the new-event page. Each page looks the event up
 * by key (answering "not found" when it is missing), and the edit and
 * new-event pages send anonymous visitors to the login page first.
 */
module EventViews {
  import opened Base
  import opened Events

  /** What a page answers. */
  datatype Response =
    | NotFound
    | LoginRedirect
    | Forbidden
    | Redirect(eventId: EventId)
    | DetailPage(event: Event, rsvpForm: Form<AttendData>, finished: bool)
    | EditPage(editing: Option<Event>, eventForm: Form<EventFields>)

  /** The event and attendance tables. */
  class EventStore {
    var events: seq<Event>
    var attendances: seq<Attendance>
    /** The key the next new event receives. */
    var nextId: EventId

    /** Keys are unique and below `nextId`, and every RSVP names a stored event. */
    ghost predicate Valid()
      reads this
    {
      (forall i, j :: 0 <= i < j < |events| ==> events[i].id != events[j].id) &&
      (forall i :: 0 <= i < |events| ==> events[i].id < nextId) &&
      (forall k :: 0 <= k < |attendances| ==> Find(events, attendances[k].eventId).Some?)
    }

    constructor ()
      ensures Valid() && events == [] && attendances == [] && nextId == 0
    {
      events, attendances, nextId := [], [], 0;
    }

    /** The detail page of event `eventId`; a valid RSVP from a signed-in user to an event still on is recorded. */
    method EventDetail(eventId: EventId, req: Request<AttendData>, now: Time) returns (resp: Response)
      requires Valid()
      modifies this`attendances
      ensures Valid()
      ensures match Find(events, eventId)
        case None => resp == NotFound && attendances == old(attendances)
        case Some(i) =>
          var rsvp := RsvpFor(events[i], req, now);
          && resp == DetailPage(events[i], rsvp.form, Finished(events[i], now))
          && attendances == old(attendances) + AsSeq(rsvp.attendance)
    {
      var found := Find(events, eventId);
      if found.None? {
        return NotFound;
      }
      var event := events[found.value];
      var rsvp := RsvpFor(event, req, now);
      attendances := attendances + AsSeq(rsvp.attendance);
      resp := DetailPage(event, rsvp.form, Finished(event, now));
      forall k | 0 <= k < |attendances|
        ensures Find(events, attendances[k].eventId).Some?
      {
        if k >= |old(attendances)| {
          assert attendances[k].eventId == eventId;
        }
      }
    }

    /** The edit page of event `eventId`: only its creator or staff may change it. */
    method EditEvent(eventId: EventId, req: Request<EventFields>) returns (resp: Response)
      requires Valid()
      modifies this`events
      ensures Valid()
      ensures !req.authenticated ==> resp == LoginRedirect && events == old(events)
      ensures req.authenticated ==> match Find(old(events), eventId)
        case None => resp == NotFound && events == old(events)
        case Some(i) => match EditFor(old(events)[i], req)
          case Denied => resp == Forbidden && events == old(events)
          case Saved(e) => resp == Redirect(eventId) && events == old(events)[i := e]
          case ShowForm(shown, f) => resp == EditPage(Some(shown), f) && events == old(events)
    {
      if !req.authenticated {
        return LoginRedirect;
      }
      var found := Find(events, eventId);
      if found.None? {
        return NotFound;
      }
      var i := found.value;
      match EditFor(events[i], req)
      case Denied =>
        resp := Forbidden;
      case Saved(e) =>
        events := events[i := e];
        resp := Redirect(eventId);
        FindAfterEdit(old(events), i, e);
      case ShowForm(shown, f) =>
        resp := EditPage(Some(shown), f);
    }

    /** The new-event page: a valid post stores a new event created by the requesting user. */
    method NewEvent(req: Request<EventFields>) returns (resp: Response)
      requires Valid()
      modifies this`events, this`nextId
      ensures Valid()
      ensures !req.authenticated ==> resp == LoginRedirect && events == old(events) && nextId == old(nextId)
      ensures req.authenticated ==> match CreateFor(old(nextId), req)
        case Created(e) => resp == Redirect(e.id) && events == old(events) + [e] && nextId == old(nextId) + 1
        case ShowBlank(f) => resp == EditPage(None, f) && events == old(events) && nextId == old(nextId)
    {
      if !req.authenticated {
        return LoginRedirect;
      }
      match CreateFor(nextId, req)
      case Created(e) =>
        FindAfterAppend(events, e);
        events := events + [e];
        nextId := nextId + 1;
        resp := Redirect(e.id);
      case ShowBlank(f) =>
        resp := EditPage(None, f);
    }
  }

  /** Replacing one event by one with the same key leaves every key findable. */
  lemma FindAfterEdit(events: seq<Event>, i: nat, e: Event)
    requires i < |events| && e.id == events[i].id
    ensures forall id :: Find(events, id).Some? ==> Find(events[i := e], id).Some?
  {
    forall id | Find(events, id).Some?
      ensures Find(events[i := e], id).Some?
    {
      var k := Find(events, id).value;
      assert events[i := e][k].id == id;
    }
  }

  /** Appending an event keeps every key findable. */
  lemma FindAfterAppend(events: seq<Event>, e: Event)
    ensures forall id :: Find(events, id).Some? ==> Find(events + [e], id).Some?
  {
    forall id | Find(events, id).Some?
      ensures Find(events + [e], id).Some?
    {
      var k := Find(events, id).value;
      assert (events + [e])[k].id == id;
    }
  }
}
