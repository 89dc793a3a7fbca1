/**
 * The event store: the `events` list, the `currentEvent` slot, and the
 * payloads it sends.
 */
module Events {
  import opened Wrappers
  import opened Js
  import opened Http
  import opened RecordCache

  /** The properties of the object literal sent by `createEvent`. */
  const CreateKeys: set<string> := {"title", "description", "eventDate", "location", "organizerId"}
  /** The properties of the object literal sent by `updateEvent`. */
  const UpdateKeys: set<string> := {"title", "description", "eventDate", "location"}

  /** The body of `POST /events`: the five form fields, copied as they are. */
  function CreateEventPayload(form: Object): (p: Object)
    ensures p.Keys == CreateKeys
    ensures forall k :: k in p ==> p[k] == Get(form, k)
  {
    map k | k in CreateKeys :: Get(form, k)
  }

  /** The body of `PUT /events/:id`: the same fields without `organizerId`. */
  function UpdateEventPayload(form: Object): (p: Object)
    ensures p.Keys == UpdateKeys
    ensures forall k :: k in p ==> p[k] == Get(form, k)
  {
    map k | k in UpdateKeys :: Get(form, k)
  }

  /** An update sends what a create sends, less the organiser: the
      organiser of an event is never changed from the client. */
  lemma UpdatePayloadOmitsOrganizer(form: Object)
    ensures UpdateEventPayload(form) == CreateEventPayload(form) - {"organizerId"}
    ensures "organizerId" !in UpdateEventPayload(form)
  {
  }

  /** `currentEvent.value = data` when `currentEvent` holds the record with
      that id, and no change otherwise. */
  function ReplaceCurrent(current: Option<Record>, id: Id, r: Record): (c: Option<Record>)
    ensures current.Some? && current.value.id == id ==> c == Some(r)
    ensures !(current.Some? && current.value.id == id) ==> c == current
  {
    if current.Some? && current.value.id == id then Some(r) else current
  }

  class EventStore {
    var events: seq<Record>
    var currentEvent: Option<Record>

    constructor ()
      ensures events == [] && currentEvent == None
    {
      events := [];
      currentEvent := None;
    }

    /** `getAllEvents`: the list becomes the server's. */
    method GetAllEvents(response: Response<seq<Record>>) returns (r: Result<seq<Record>>)
      modifies this
      ensures currentEvent == old(currentEvent)
      ensures response.Ok? ==> r == Success(response.payload) && events == response.payload
      ensures response.Err? ==> r == Failure(DefaultMessage(Operation.LoadEvents)) && events == old(events)
    {
      if response.Ok? {
        events := response.payload;
        r := Success(response.payload);
      } else {
        r := Failure(DefaultMessage(Operation.LoadEvents));
      }
    }

    /** `getEventById`: the record becomes `currentEvent`; the list stays. */
    method GetEventById(id: Id, response: Response<Record>) returns (r: Result<Record>)
      modifies this
      ensures events == old(events)
      ensures response.Ok? ==> r == Success(response.payload) && currentEvent == Some(response.payload)
      ensures response.Err? ==> r == Failure(DefaultMessage(Operation.LoadEvent)) && currentEvent == old(currentEvent)
    {
      if response.Ok? {
        currentEvent := Some(response.payload);
        r := Success(response.payload);
      } else {
        r := Failure(DefaultMessage(Operation.LoadEvent));
      }
    }

    /** `createEvent`: sends the create payload and pushes the created
        record at the end. */
    method CreateEvent(form: Object, response: Response<Record>) returns (r: Result<Record>, sent: Object)
      modifies this
      ensures sent == CreateEventPayload(form)
      ensures currentEvent == old(currentEvent)
      ensures response.Ok? ==> r == Success(response.payload) && events == old(events) + [response.payload]
      ensures response.Err? ==> r == Failure(ErrorFor(response.message, Operation.CreateEvent)) &&
                                events == old(events)
    {
      sent := CreateEventPayload(form);
      if response.Ok? {
        events := events + [response.payload];
        r := Success(response.payload);
      } else {
        r := Failure(ErrorFor(response.message, Operation.CreateEvent));
      }
    }

    /** `updateEvent`: sends the update payload and replaces the first
        record with that id; the fixed message on any failure. */
    method UpdateEvent(eventId: Id, form: Object, response: Response<Record>) returns (r: Result<Record>, sent: Object)
      modifies this
      ensures sent == UpdateEventPayload(form)
      ensures currentEvent == old(currentEvent)
      ensures response.Ok? ==> r == Success(response.payload) &&
                               events == ReplaceFirst(old(events), eventId, response.payload)
      ensures response.Err? ==> r == Failure(DefaultMessage(Operation.UpdateEvent)) && events == old(events)
    {
      sent := UpdateEventPayload(form);
      if response.Ok? {
        var index := FindIndex(events, eventId);
        if index != -1 {
          events := events[index := response.payload];
        }
        r := Success(response.payload);
      } else {
        r := Failure(DefaultMessage(Operation.UpdateEvent));
      }
    }

    /** `deleteEvent`: every record with that id is filtered out. */
    method DeleteEvent(id: Id, response: Response<()>) returns (r: Result<()>)
      modifies this
      ensures currentEvent == old(currentEvent)
      ensures response.Ok? ==> r == Success(()) && events == RemoveById(old(events), id)
      ensures response.Err? ==> r == Failure(DefaultMessage(Operation.DeleteEvent)) && events == old(events)
    {
      if response.Ok? {
        events := RemoveById(events, id);
        r := Success(());
      } else {
        r := Failure(DefaultMessage(Operation.DeleteEvent));
      }
    }

    /** `joinEvent` and `leaveEvent` share this body: the first list entry
        with that id and, if it is that event, `currentEvent` take the
        server's record. */
    method Participate(eventId: Id, op: Operation, response: Response<Record>) returns (r: Result<Record>)
      requires op == Operation.JoinEvent || op == Operation.LeaveEvent
      modifies this
      ensures response.Ok? ==> r == Success(response.payload) &&
                               events == ReplaceFirst(old(events), eventId, response.payload) &&
                               currentEvent == ReplaceCurrent(old(currentEvent), eventId, response.payload)
      ensures response.Err? ==> r == Failure(ErrorFor(response.message, op)) &&
                                events == old(events) && currentEvent == old(currentEvent)
    {
      if response.Ok? {
        var index := FindIndex(events, eventId);
        if index != -1 {
          events := events[index := response.payload];
        }
        if currentEvent.Some? && currentEvent.value.id == eventId {
          currentEvent := Some(response.payload);
        }
        r := Success(response.payload);
      } else {
        r := Failure(ErrorFor(response.message, op));
      }
    }

    /** `joinEvent` */
    method JoinEvent(eventId: Id, response: Response<Record>) returns (r: Result<Record>)
      modifies this
      ensures response.Ok? ==> r == Success(response.payload) &&
                               events == ReplaceFirst(old(events), eventId, response.payload) &&
                               currentEvent == ReplaceCurrent(old(currentEvent), eventId, response.payload)
      ensures response.Err? ==> r == Failure(ErrorFor(response.message, Operation.JoinEvent)) &&
                                events == old(events) && currentEvent == old(currentEvent)
    {
      r := Participate(eventId, Operation.JoinEvent, response);
    }

    /** `leaveEvent` */
    method LeaveEvent(eventId: Id, response: Response<Record>) returns (r: Result<Record>)
      modifies this
      ensures response.Ok? ==> r == Success(response.payload) &&
                               events == ReplaceFirst(old(events), eventId, response.payload) &&
                               currentEvent == ReplaceCurrent(old(currentEvent), eventId, response.payload)
      ensures response.Err? ==> r == Failure(ErrorFor(response.message, Operation.LeaveEvent)) &&
                                events == old(events) && currentEvent == old(currentEvent)
    {
      r := Participate(eventId, Operation.LeaveEvent, response);
    }
  }
}
