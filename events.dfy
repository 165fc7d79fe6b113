/**
 * The event service: the event repository with creation, partial update, guarded deletion
 * and the expiry sweep, plus the pure mappings to the view and analytics records.
 */
module Events {
  import opened Common
  import opened Entities
  import opened Dtos

  datatype EventError =
    | EventNotFound
    | IllegalArgument(message: string)
    | AccessDenied(message: string)
    | NullCreator            // the NullPointerException `delete` raises for an event without a creator

  const DatesMessage := "Start date must be before end date"
  const DeleteDeniedMessage := "You cannot delete this event."

  /** The event with its non-null edit fields written over it; seats and creator are left alone. */
  function Edited(e: Event, d: EditEventDTO): (r: Event)
    ensures r.id == e.id && r.creator == e.creator
    ensures r.totalSeats == e.totalSeats && r.availableSeats == e.availableSeats
    ensures d.name.None? ==> r.name == e.name
    ensures d.name.Some? ==> r.name == d.name.value
    ensures d.description.None? ==> r.description == e.description
    ensures d.description.Some? ==> r.description == d.description.value
    ensures d.startDate.None? ==> r.startDate == e.startDate
    ensures d.startDate.Some? ==> r.startDate == d.startDate.value
    ensures d.endDate.None? ==> r.endDate == e.endDate
    ensures d.endDate.Some? ==> r.endDate == d.endDate.value
    ensures d.venue.None? ==> r.venue == e.venue
    ensures d.venue.Some? ==> r.venue == d.venue.value
    ensures d.location.None? ==> r.location == e.location
    ensures d.location.Some? ==> r.location == d.location.value
    ensures d.price.None? ==> r.price == e.price
    ensures d.price.Some? ==> r.price == d.price.value
  {
    e.(name := d.name.GetOr(e.name),
       description := d.description.GetOr(e.description),
       startDate := d.startDate.GetOr(e.startDate),
       endDate := d.endDate.GetOr(e.endDate),
       venue := d.venue.GetOr(e.venue),
       location := d.location.GetOr(e.location),
       price := d.price.GetOr(e.price))
  }

  /** The edit is rejected only when both dates are given and the start is after the end. */
  predicate EditDatesInverted(d: EditEventDTO) {
    d.startDate.Some? && d.endDate.Some? && d.startDate.value > d.endDate.value
  }

  /** Applying the same edit twice is the same as applying it once. */
  lemma EditIdempotent(e: Event, d: EditEventDTO)
    ensures Edited(Edited(e, d), d) == Edited(e, d)
  {
  }

  /** An edit form with every field empty leaves the event as it was. */
  lemma EmptyEditIsIdentity(e: Event, d: EditEventDTO)
    requires d.name.None? && d.description.None? && d.startDate.None? && d.endDate.None?
    requires d.venue.None? && d.location.None? && d.price.None?
    ensures Edited(e, d) == e
  {
  }

  /**
   * The decision `delete` takes on a found event: the role test, then the creator's id
   * (which fails when there is no creator), then the seat test.
   */
  function DeleteVerdict(e: Event, user: User): (r: Result<(), EventError>)
    ensures e.creator.None? ==> r == Err(NullCreator)
    ensures e.creator.Some? ==>
      (r.Ok? <==> user.role == ADMIN || (e.creator.value.id == user.id && e.availableSeats > 0))
    ensures e.creator.Some? && r.Err? ==> r.error == AccessDenied(DeleteDeniedMessage)
  {
    var isAdmin := "ADMIN" == RoleName(user.role);
    match e.creator
    case None => Err(NullCreator)
    case Some(c) =>
      var isOwner := c.id == user.id;
      var isActive := e.availableSeats > 0;
      if !isAdmin && (!isOwner || !isActive) then Err(AccessDenied(DeleteDeniedMessage)) else Ok(())
  }

  /** A delete decision that treats a missing creator as "not the owner", as `isOwner` does. */
  function DeleteVerdictNullSafe(e: Event, user: User): (r: Result<(), EventError>)
    ensures r.Ok? <==> user.role == ADMIN || (e.creator.Some? && e.creator.value.id == user.id && e.availableSeats > 0)
    ensures r.Err? ==> r.error == AccessDenied(DeleteDeniedMessage)
  {
    var isAdmin := "ADMIN" == RoleName(user.role);
    var isOwner := e.creator.Some? && e.creator.value.id == user.id;
    var isActive := e.availableSeats > 0;
    if !isAdmin && (!isOwner || !isActive) then Err(AccessDenied(DeleteDeniedMessage)) else Ok(())
  }

  /** The two verdicts differ only on events without a creator. */
  lemma NullSafeVerdictAgrees(e: Event, user: User)
    requires e.creator.Some?
    ensures DeleteVerdictNullSafe(e, user) == DeleteVerdict(e, user)
  {
  }

  /** An administrator asking to delete an event that has no creator gets the null-pointer failure. */
  lemma AdminDeleteOfOwnerlessEventFails(e: Event, admin: User)
    requires e.creator.None? && admin.role == ADMIN
    ensures DeleteVerdict(e, admin) == Err(NullCreator)
    ensures DeleteVerdictNullSafe(e, admin) == Ok(())
  {
  }

  /** What the expiry sweep keeps: every event whose end is not strictly before `now`. */
  function Unexpired(events: map<Uuid, Event>, now: Instant): (m: map<Uuid, Event>)
    ensures forall k :: k in m <==> k in events && !(events[k].endDate < now)
    ensures forall k :: k in m ==> m[k] == events[k]
  {
    map k | k in events && !(events[k].endDate < now) :: events[k]
  }

  /** Sweeping twice, at `a` and then at `b`, is one sweep at the later instant. */
  lemma SweepsCompose(events: map<Uuid, Event>, a: Instant, b: Instant)
    ensures Unexpired(Unexpired(events, a), b) == Unexpired(events, if a < b then b else a)
  {
    var l := Unexpired(Unexpired(events, a), b);
    var r := Unexpired(events, if a < b then b else a);
    assert l.Keys == r.Keys;
  }

  /** The view of an event: fields copied, creator mapped when present, both flags false. */
  function MapToDTO(e: Event): (d: EventDTO)
    ensures d.creator.None? <==> e.creator.None?
    ensures e.creator.Some? ==> d.creator == Some(UserView(e.creator.value))
    ensures d.id == Some(e.id) && d.name == e.name && d.description == e.description
    ensures d.venue == e.venue && d.location == e.location && d.price == e.price
    ensures d.totalSeats == e.totalSeats && d.availableSeats == Some(e.availableSeats)
    ensures d.startDate == Some(e.startDate) && d.endDate == Some(e.endDate)
    ensures !d.canBook && !d.canEditDelete
  {
    var creator := match e.creator
      case None => None
      case Some(u) => Some(UserView(u));
    EventDTO(Some(e.id), e.name, e.description, Some(e.startDate), Some(e.endDate), e.venue,
             e.location, e.price, e.totalSeats, Some(e.availableSeats), creator, false, false)
  }

  /** The record sent to the analytics service. */
  function MapToAnalytics(e: Event): (a: EventAnalyticsDTO)
    ensures a.id == e.id && a.name == e.name && a.totalSeats == e.totalSeats && a.price == e.price
  {
    EventAnalyticsDTO(e.id, e.name, e.totalSeats, e.price)
  }

  class EventService {
    /** The event repository, keyed by event id. */
    var events: map<Uuid, Event>

    ghost predicate Valid()
      reads this
    {
      forall k :: k in events ==> events[k].id == k
    }

    constructor ()
      ensures Valid() && events == map[]
    {
      events := map[];
    }

    /** `findById`: the stored event, or EventNotFound. */
    function FindById(id: Uuid): (r: Result<Event, EventError>)
      reads this
      ensures r.Ok? <==> id in events
      ensures r.Ok? ==> r.value == events[id]
      ensures r.Err? ==> r.error == EventNotFound
    {
      if id in events then Ok(events[id]) else Err(EventNotFound)
    }

    /** `save` / `update(Event)`: store the event under its id. */
    method Save(e: Event)
      requires Valid()
      modifies this
      ensures Valid()
      ensures events == old(events)[e.id := e]
    {
      events := events[e.id := e];
    }

    /**
     * `create`: reject a start after the end (equal dates are accepted), otherwise store a
     * new event, owned by `user`, whose available seats equal its total seats. `id` is the
     * identity the repository generates.
     */
    method Create(dto: EventDTO, user: User, id: Uuid) returns (r: Result<Event, EventError>)
      requires Valid()
      requires dto.startDate.Some? && dto.endDate.Some?   // @NotNull on the form
      requires id !in events
      modifies this
      ensures Valid()
      ensures dto.startDate.value > dto.endDate.value ==>
        r == Err(IllegalArgument(DatesMessage)) && events == old(events)
      ensures dto.startDate.value <= dto.endDate.value ==>
        && r.Ok?
        && r.value.id == id && r.value.creator == Some(user)
        && r.value.availableSeats == r.value.totalSeats == dto.totalSeats
        && r.value.name == dto.name && r.value.description == dto.description
        && r.value.startDate == dto.startDate.value && r.value.endDate == dto.endDate.value
        && r.value.venue == dto.venue && r.value.location == dto.location && r.value.price == dto.price
        && events == old(events)[id := r.value]
    {
      if dto.startDate.value > dto.endDate.value {
        return Err(IllegalArgument(DatesMessage));
      }
      var event := Event(id, dto.name, dto.description, dto.startDate.value, dto.endDate.value,
                         dto.venue, dto.location, dto.price, dto.totalSeats, dto.totalSeats, Some(user));
      Save(event);
      r := Ok(event);
    }

    /**
     * `update(id, form)`: EventNotFound for an unknown id; a start after the end is rejected
     * only when both dates are given; otherwise the non-null fields are written over the event.
     */
    method Update(id: Uuid, dto: EditEventDTO) returns (r: Result<Event, EventError>)
      requires Valid()
      modifies this
      ensures Valid()
      ensures id !in old(events) ==> r == Err(EventNotFound) && events == old(events)
      ensures id in old(events) && EditDatesInverted(dto) ==>
        r == Err(IllegalArgument(DatesMessage)) && events == old(events)
      ensures id in old(events) && !EditDatesInverted(dto) ==>
        r == Ok(Edited(old(events)[id], dto)) && events == old(events)[id := r.value]
    {
      var found := FindById(id);
      if found.Err? {
        return Err(EventNotFound);
      }
      if EditDatesInverted(dto) {
        return Err(IllegalArgument(DatesMessage));
      }
      var event := Edited(found.value, dto);
      Save(event);
      r := Ok(event);
    }

    /**
     * `delete`: EventNotFound for an unknown id; otherwise the event is removed when
     * DeleteVerdict allows it, and kept when it does not.
     */
    method Delete(id: Uuid, currentUser: User) returns (r: Result<(), EventError>)
      requires Valid()
      modifies this
      ensures Valid()
      ensures id !in old(events) ==> r == Err(EventNotFound) && events == old(events)
      ensures id in old(events) ==> r == DeleteVerdict(old(events)[id], currentUser)
      ensures r.Ok? ==> events == old(events) - {id}
      ensures r.Err? ==> events == old(events)
    {
      var found := FindById(id);
      if found.Err? {
        return Err(EventNotFound);
      }
      r := DeleteVerdict(found.value, currentUser);
      if r.Ok? {
        events := events - {id};
      }
    }

    /** `removeExpiredEvents`: drop every event that ended strictly before `now`. */
    method RemoveExpiredEvents(now: Instant)
      requires Valid()
      modifies this
      ensures Valid()
      ensures events == Unexpired(old(events), now)
    {
      events := Unexpired(events, now);
    }
  }
}
