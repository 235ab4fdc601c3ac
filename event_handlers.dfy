/** internal/handlers/events.go: creating events for oneself or for a group
    one belongs to, listing the events one can see, reading one event, and
    shortlisting vendors for an event. The two `time.Parse` layouts are
    parameters returning the parsed instant, abstracted to an integer. */
module EventHandlers {
  import opened Common
  import opened Store
  import opened Gin

  /** The create body; title, city and date are `binding:"required"`. */
  datatype CreateEventRequest = CreateEventRequest(
    title: string,
    city: string,
    eventType: string,
    date: string,
    budgetMin: Option<int>,
    budgetMax: Option<int>,
    organizerGroupId: Option<GroupId>,
    coverImageUrl: Option<string>)

  function CreateChecks(req: CreateEventRequest): seq<FieldCheck> {
    [Required("Title", req.title), Required("City", req.city), Required("Date", req.date)]
  }

  /** The date as RFC 3339, or failing that as YYYY-MM-DD. */
  function ParseDate(text: string, rfc3339: string -> Option<int>, day: string -> Option<int>): (date: Option<int>)
    ensures date.Some? <==> rfc3339(text).Some? || day(text).Some?
    ensures rfc3339(text).Some? ==> date == rfc3339(text)
    ensures rfc3339(text).None? ==> date == day(text)
  {
    if rfc3339(text).Some? then rfc3339(text) else day(text)
  }

  /** Every event has exactly one organizer: a user or a group. */
  ghost predicate OneOrganizer(e: Event) {
    e.organizerUserId.Some? != e.organizerGroupId.Some?
  }

  ghost predicate OrganizersExclusive(events: map<EventId, Event>) {
    forall k :: k in events ==> OneOrganizer(events[k])
  }

  /** The row `CreateEvent` inserts: owned by the group when one is given,
      otherwise by the caller. */
  function NewEvent(id: EventId, req: CreateEventRequest, date: int, caller: UserId): (e: Event)
    ensures e.id == id && e.title == req.title && e.city == req.city && e.date == date
    ensures req.organizerGroupId.Some? ==> e.organizerGroupId == req.organizerGroupId && e.organizerUserId.None?
    ensures req.organizerGroupId.None? ==> e.organizerUserId == Some(caller) && e.organizerGroupId.None?
  {
    var (organizerUser, organizerGroup) :=
      if req.organizerGroupId.Some? then (None, req.organizerGroupId) else (Some(caller), None);
    Event(id, req.title, req.city, req.eventType, date, req.budgetMin, req.budgetMax,
          organizerUser, organizerGroup, req.coverImageUrl)
  }

  /** Whoever asks, a created event has exactly one organizer. */
  lemma NewEventHasOneOrganizer(id: EventId, req: CreateEventRequest, date: int, caller: UserId)
    ensures OneOrganizer(NewEvent(id, req, date, caller))
  {
  }

  predicate IsMember(members: map<(GroupId, UserId), string>, group: GroupId, user: UserId) {
    (group, user) in members
  }

  datatype EventCreated = EventCreated(message: string, eventId: EventId)

  /** The checks `CreateEvent` makes before inserting, in the handler's
      order: caller, binding, date, then membership of the named group. */
  function CreateRefusal(members: map<(GroupId, UserId), string>, caller: Option<UserId>,
                         body: Body<CreateEventRequest>,
                         rfc3339: string -> Option<int>, day: string -> Option<int>): (refusal: Option<Reply>)
    ensures refusal.None? ==> caller.Some? && body.Decoded? && ParseDate(body.value.date, rfc3339, day).Some?
  {
    if caller.None? then Some(Reply(StatusUnauthorized, "Unauthorized"))
    else if BodyRefusal(body, "CreateEventRequest", CreateChecks).Some? then
      Some(Reply(StatusBadRequest, BodyRefusal(body, "CreateEventRequest", CreateChecks).value))
    else if ParseDate(body.value.date, rfc3339, day).None? then
      Some(Reply(StatusBadRequest, "Invalid date format. Use YYYY-MM-DD or RFC3339"))
    else if body.value.organizerGroupId.Some? && !IsMember(members, body.value.organizerGroupId.value, caller.value) then
      Some(Reply(StatusForbidden, "You are not a member of this group"))
    else None
  }

  /** An event is created exactly when there is a caller, the body binds with
      title, city and date present, the date parses in one of the two
      layouts, and the caller belongs to the group the event is for, if any. */
  lemma CreateAdmittedIff(members: map<(GroupId, UserId), string>, caller: Option<UserId>,
                          body: Body<CreateEventRequest>,
                          rfc3339: string -> Option<int>, day: string -> Option<int>)
    ensures CreateRefusal(members, caller, body, rfc3339, day).None? <==>
      && caller.Some? && body.Decoded?
      && body.value.title != "" && body.value.city != "" && body.value.date != ""
      && (rfc3339(body.value.date).Some? || day(body.value.date).Some?)
      && (body.value.organizerGroupId.Some? ==> (body.value.organizerGroupId.value, caller.value) in members)
  {
    if caller.Some? && body.Decoded? {
      BindingAcceptsIffAllTagsHold("CreateEventRequest", CreateChecks(body.value));
      assert BindingError("CreateEventRequest", CreateChecks(body.value)).None? <==>
        forall i :: 0 <= i < 3 ==> CreateChecks(body.value)[i].ok;
    }
  }

  /** An outsider cannot create an event for a group: the handler answers
      403 whatever else the request holds, once it binds and its date parses. */
  lemma OutsiderCannotCreateGroupEvent(members: map<(GroupId, UserId), string>, caller: UserId,
                                       req: CreateEventRequest,
                                       rfc3339: string -> Option<int>, day: string -> Option<int>)
    requires BodyRefusal(Decoded(req), "CreateEventRequest", CreateChecks).None?
    requires ParseDate(req.date, rfc3339, day).Some?
    requires req.organizerGroupId.Some? && (req.organizerGroupId.value, caller) !in members
    ensures CreateRefusal(members, Some(caller), Decoded(req), rfc3339, day)
      == Some(Reply(StatusForbidden, "You are not a member of this group"))
  {
  }

  /** `CreateEvent`. `newId` is the id the database assigns. */
  method CreateEvent(db: Db, caller: Option<UserId>, body: Body<CreateEventRequest>,
                     rfc3339: string -> Option<int>, day: string -> Option<int>, newId: EventId)
    returns (r: Response<EventCreated>)
    requires db.Valid() && newId !in db.events
    modifies db`events
    ensures db.Valid()
    ensures OrganizersExclusive(old(db.events)) ==> OrganizersExclusive(db.events)
    ensures var refusal := CreateRefusal(db.members, caller, body, rfc3339, day);
      && (refusal.Some? ==> r == Err(refusal.value.status, refusal.value.error) && db.events == old(db.events))
      && (refusal.None? ==>
            && r == Ok(StatusCreated, EventCreated("Event created successfully", newId))
            && db.events == old(db.events)[newId := NewEvent(newId, body.value, ParseDate(body.value.date, rfc3339, day).value, caller.value)])
  {
    var refusal := CreateRefusal(db.members, caller, body, rfc3339, day);
    if refusal.Some? {
      return Err(refusal.value.status, refusal.value.error);
    }
    var req := body.value;
    var date := rfc3339(req.date);
    if date.None? {
      date := day(req.date);
    }
    var organizerUser: Option<UserId> := Some(caller.value);
    var organizerGroup: Option<GroupId> := None;
    if req.organizerGroupId.Some? {
      organizerUser := None;
      organizerGroup := req.organizerGroupId;
    }
    var event := Event(newId, req.title, req.city, req.eventType, date.value, req.budgetMin, req.budgetMax,
                       organizerUser, organizerGroup, req.coverImageUrl);
    assert event == NewEvent(newId, req, date.value, caller.value);
    NewEventHasOneOrganizer(newId, req, date.value, caller.value);
    InsertEvent(db, event);
    return Ok(StatusCreated, EventCreated("Event created successfully", newId));
  }

  /** The `INSERT INTO events` of `CreateEvent`. */
  method InsertEvent(db: Db, event: Event)
    requires db.Valid() && event.id !in db.events
    modifies db`events
    ensures db.Valid()
    ensures db.events == old(db.events)[event.id := event]
    ensures OrganizersExclusive(old(db.events)) && OneOrganizer(event) ==> OrganizersExclusive(db.events)
  {
    db.events := db.events[event.id := event];
  }

  // ---------------------------------------------------------------- listing

  /** The caller sees an event they organize, or one organized by a group
      they belong to (the LEFT JOIN on their membership). */
  predicate VisibleTo(e: Event, members: map<(GroupId, UserId), string>, user: UserId) {
    e.organizerUserId == Some(user) || (e.organizerGroupId.Some? && IsMember(members, e.organizerGroupId.value, user))
  }

  /** What a creator can create, the creator can see: an event the handler
      accepts is visible to its creator in `ListMyEvents`. */
  lemma CreatorSeesEvent(id: EventId, req: CreateEventRequest, date: int, caller: UserId,
                         members: map<(GroupId, UserId), string>)
    requires req.organizerGroupId.Some? ==> IsMember(members, req.organizerGroupId.value, caller)
    ensures VisibleTo(NewEvent(id, req, date, caller), members, caller)
  {
  }

  /** A group's event is visible exactly to the group's members. */
  lemma GroupEventsVisibleToMembersOnly(e: Event, members: map<(GroupId, UserId), string>, user: UserId)
    requires OneOrganizer(e) && e.organizerGroupId.Some?
    ensures VisibleTo(e, members, user) <==> IsMember(members, e.organizerGroupId.value, user)
  {
  }

  /** One row of `ListMyEvents`. */
  datatype EventSummary = EventSummary(
    id: EventId,
    title: string,
    city: string,
    date: int,
    eventType: string,
    budgetMin: Option<int>,
    budgetMax: Option<int>,
    coverImageUrl: Option<string>)

  function SummaryOf(e: Event): EventSummary {
    EventSummary(e.id, e.title, e.city, e.date, e.eventType, e.budgetMin, e.budgetMax, e.coverImageUrl)
  }

  /** `ListMyEvents`: 401 without a caller; otherwise exactly the events
      visible to the caller, each once. */
  method ListMyEvents(db: Db, caller: Option<UserId>) returns (r: Response<seq<EventSummary>>, rows: seq<EventId>)
    requires db.Valid()
    ensures caller.None? ==> r == Err(StatusUnauthorized, "Unauthorized") && rows == []
    ensures caller.Some? ==> r.Ok? && r.status == StatusOK && |r.body| == |rows| && Distinct(rows)
    ensures caller.Some? ==> forall k :: k in rows <==> k in db.events && VisibleTo(db.events[k], db.members, caller.value)
    ensures caller.Some? ==> forall i :: 0 <= i < |rows| ==>
      rows[i] in db.events && r.body[i] == SummaryOf(db.events[rows[i]]) && r.body[i].id == rows[i]
  {
    if caller.None? {
      return Err(StatusUnauthorized, "Unauthorized"), [];
    }
    var userId := caller.value;
    var members := db.members;
    rows := Scan(db.events, (k: EventId, e: Event) => VisibleTo(e, members, userId));
    var listing: seq<EventSummary> := [];
    var i := 0;
    while i < |rows|
      invariant 0 <= i <= |rows| && |listing| == i
      invariant forall j :: 0 <= j < i ==> listing[j] == SummaryOf(db.events[rows[j]])
    {
      listing := listing + [SummaryOf(db.events[rows[i]])];
      i := i + 1;
    }
    r := Ok(StatusOK, listing);
  }

  // ---------------------------------------------------------------- one event

  datatype EventDetail = EventDetail(
    id: EventId,
    title: string,
    city: string,
    date: int,
    eventType: string,
    budgetMin: Option<int>,
    budgetMax: Option<int>,
    coverImageUrl: Option<string>,
    organizerUserId: Option<UserId>,
    organizerGroupId: Option<GroupId>)

  function DetailOf(e: Event): EventDetail {
    EventDetail(e.id, e.title, e.city, e.date, e.eventType, e.budgetMin, e.budgetMax, e.coverImageUrl,
                e.organizerUserId, e.organizerGroupId)
  }

  /** `GetEventById`: 404 for an unknown id, otherwise the event, whoever
      asks (the handler checks neither organizer nor membership). */
  method GetEventById(db: Db, id: EventId) returns (r: Response<EventDetail>)
    requires db.Valid()
    ensures id !in db.events ==> r == Err(StatusNotFound, "Event not found")
    ensures id in db.events ==>
      && r.Ok? && r.status == StatusOK && r.body.id == id
      && r.body.organizerUserId == db.events[id].organizerUserId
      && r.body.organizerGroupId == db.events[id].organizerGroupId
      && r.body == DetailOf(db.events[id])
  {
    if id !in db.events {
      return Err(StatusNotFound, "Event not found");
    }
    return Ok(StatusOK, DetailOf(db.events[id]));
  }

  // ---------------------------------------------------------------- shortlist

  /** `ShortlistVendor`: `INSERT ... ON CONFLICT DO NOTHING`, so the pair is
      in the shortlist afterwards whether or not it was before. */
  method ShortlistVendor(db: Db, eventId: EventId, vendorId: VendorId) returns (r: Response<string>)
    modifies db`shortlist
    ensures r == Ok(StatusOK, "Vendor shortlisted")
    ensures db.shortlist == old(db.shortlist) + {(eventId, vendorId)}
  {
    db.shortlist := db.shortlist + {(eventId, vendorId)};
    return Ok(StatusOK, "Vendor shortlisted");
  }

  /** Shortlisting is idempotent: a pair already present leaves the set as it
      was, and shortlisting twice is shortlisting once; no other pair is
      added or removed. */
  lemma ShortlistIdempotent(shortlist: set<(EventId, VendorId)>, eventId: EventId, vendorId: VendorId)
    ensures (eventId, vendorId) in shortlist ==> shortlist + {(eventId, vendorId)} == shortlist
    ensures (shortlist + {(eventId, vendorId)}) + {(eventId, vendorId)} == shortlist + {(eventId, vendorId)}
    ensures forall p :: p in shortlist + {(eventId, vendorId)} <==> p in shortlist || p == (eventId, vendorId)
  {
  }
}
