/**
 * The event pages: the per-viewer flags of the list and details views, the date check of
 * the add and edit forms, and the add, edit and delete handlers with their authorization
 * guard.
 */
module EventWeb {
  import opened Common
  import opened Entities
  import opened Dtos
  import opened Events
  import Security

  const CreatedMessage := "Event created successfully!"
  const CreateFailedMessage := "Failed to create event!"
  const UpdatedMessage := "Event updated successfully!"
  /** The refusal the authorization guard raises. */
  const GuardDeniedMessage := "Access Denied"

  /** The page a handler answers with. */
  datatype Page =
    | AddForm(form: EventDTO)           // the add form, shown again with its data
    | EditForm(edit: EditEventDTO)      // the edit form, shown again with its data
    | AddFormWithErrors                 // the add form with the validation messages
    | RedirectToEvents(flash: string)
    | RedirectToAddEvent(flash: string)

  /** The creator's id as the view sees it, or None for an event without a creator. */
  function CreatorId(d: EventDTO): (r: Option<Uuid>)
    ensures r.Some? <==> d.creator.Some?
    ensures r.Some? ==> r.value == d.creator.value.id
  {
    match d.creator
    case None => None
    case Some(c) => Some(c.id)
  }

  /** The booking rule both pages apply: seats are known and left, and the viewer is not the creator. */
  function CanBook(d: EventDTO, viewer: User): (b: bool)
    ensures b <==> d.availableSeats.Some? && d.availableSeats.value > 0
                   && !(d.creator.Some? && d.creator.value.id == viewer.id)
  {
    var creatorId := CreatorId(d);
    d.availableSeats.Some? && d.availableSeats.value > 0 && (creatorId.None? || creatorId.value != viewer.id)
  }

  /** An entry of the events list, as seen by `viewer` (None for an anonymous visitor). */
  function ListEntry(e: Event, viewer: Option<User>): (d: EventDTO)
    ensures d.(canBook := false, canEditDelete := false) == MapToDTO(e)
    ensures viewer.None? ==> !d.canBook && !d.canEditDelete
    ensures viewer.Some? ==>
      (d.canBook <==> e.availableSeats > 0 && !(e.creator.Some? && e.creator.value.id == viewer.value.id))
    ensures viewer.Some? ==>
      (d.canEditDelete <==> Security.Permits(e, viewer.value.id, RoleName(viewer.value.role)))
  {
    var dto := MapToDTO(e);
    match viewer
    case None => dto
    case Some(u) =>
      var creatorId := CreatorId(dto);
      var canEditDelete := u.role == ADMIN
        || (creatorId == Some(u.id) && dto.availableSeats.Some? && dto.availableSeats.value > 0);
      dto.(canBook := CanBook(dto, u), canEditDelete := canEditDelete)
  }

  /** The details page: only `canBook` is computed, and only for a signed-in viewer. */
  function DetailsEntry(e: Event, viewer: Option<User>): (d: EventDTO)
    ensures d.(canBook := false) == MapToDTO(e)
    ensures viewer.None? ==> !d.canBook
    ensures !d.canEditDelete
  {
    var dto := MapToDTO(e);
    match viewer
    case None => dto
    case Some(u) => dto.(canBook := CanBook(dto, u))
  }

  /** The list and details pages give every viewer the same booking verdict. */
  lemma ListAndDetailsAgreeOnBooking(e: Event, viewer: Option<User>)
    ensures ListEntry(e, viewer).canBook == DetailsEntry(e, viewer).canBook
  {
  }

  /** For an event with a creator, the list's edit/delete flag is exactly what `delete` allows. */
  lemma ListFlagAgreesWithDelete(e: Event, u: User)
    requires e.creator.Some?
    ensures ListEntry(e, Some(u)).canEditDelete == DeleteVerdict(e, u).Ok?
  {
  }

  /** The form check: both dates are given and the end is strictly before the start. */
  predicate EndBeforeStart(start: Option<Instant>, end: Option<Instant>) {
    start.Some? && end.Some? && end.value < start.value
  }

  /** The form check refuses exactly what the service's edit check refuses. */
  lemma EditCheckAgreesWithService(d: EditEventDTO)
    ensures EndBeforeStart(d.startDate, d.endDate) <==> EditDatesInverted(d)
  {
  }

  /** The flash message a failed creation shows: the argument error's text, else a generic one. */
  function CreateFailureText(r: Result<Event, EventError>): (s: string)
    ensures r.Err? && r.error.IllegalArgument? ==> s == r.error.message
    ensures !(r.Err? && r.error.IllegalArgument?) ==> s == CreateFailedMessage
  {
    match r
    case Err(IllegalArgument(m)) => m
    case _ => CreateFailedMessage
  }

  /**
   * `addEvent`. `bindingErrors` stands for the bean validation result; a missing date is one
   * of those errors. `generated` is the AI description, present when a non-blank title was
   * given; `id` is the identity the repository generates.
   */
  method AddEvent(svc: EventService, dto: EventDTO, bindingErrors: bool, action: Option<string>,
                  generated: Option<string>, user: User, id: Uuid) returns (p: Page)
    requires svc.Valid()
    requires id !in svc.events
    modifies svc
    ensures svc.Valid()
    ensures action == Some("generateDescription") ==>
      && p == AddForm(if generated.Some? then dto.(description := generated.value) else dto)
      && svc.events == old(svc.events)
    ensures action != Some("generateDescription")
            && (bindingErrors || dto.startDate.None? || dto.endDate.None? || EndBeforeStart(dto.startDate, dto.endDate)) ==>
      p == AddFormWithErrors && svc.events == old(svc.events)
    ensures action != Some("generateDescription")
            && !(bindingErrors || dto.startDate.None? || dto.endDate.None? || EndBeforeStart(dto.startDate, dto.endDate)) ==>
      && p == RedirectToEvents(CreatedMessage)
      && svc.events == old(svc.events)[id := Event(id, dto.name, dto.description, dto.startDate.value,
                                                   dto.endDate.value, dto.venue, dto.location, dto.price,
                                                   dto.totalSeats, dto.totalSeats, Some(user))]
  {
    var hasErrors := bindingErrors || dto.startDate.None? || dto.endDate.None?
                     || EndBeforeStart(dto.startDate, dto.endDate);
    if action == Some("generateDescription") {
      var form := dto;
      if generated.Some? {
        form := form.(description := generated.value);
      }
      return AddForm(form);
    }
    if hasErrors {
      return AddFormWithErrors;
    }
    var r := svc.Create(dto, user, id);
    p := if r.Ok? then RedirectToEvents(CreatedMessage) else RedirectToAddEvent(CreateFailureText(r));
  }

  /** The `@PreAuthorize` guard on edit and delete: `canEditOrDelete` for the signed-in user. */
  function Guard(svc: EventService, id: Uuid, user: User): (r: Result<(), EventError>)
    reads svc
    ensures id !in svc.events ==> r == Err(EventNotFound)
    ensures r.Ok? ==> id in svc.events
    ensures id in svc.events ==>
      (r.Ok? <==> Security.Permits(svc.events[id], user.id, RoleName(user.role)))
    ensures id in svc.events && r.Err? ==> r.error == AccessDenied(GuardDeniedMessage)
  {
    var allowed := Security.CanEditOrDelete(svc, id, user.id, RoleName(user.role));
    if allowed.Err? then Err(allowed.error)
    else if !allowed.value then Err(AccessDenied(GuardDeniedMessage))
    else Ok(())
  }

  /**
   * `editEvent`, behind its guard: an inverted pair of dates or a binding error shows the
   * form again; otherwise the service update runs and its failure propagates.
   */
  method EditEvent(svc: EventService, id: Uuid, dto: EditEventDTO, bindingErrors: bool, user: User)
    returns (r: Result<Page, EventError>)
    requires svc.Valid()
    modifies svc
    ensures svc.Valid()
    ensures old(Guard(svc, id, user)).Err? ==> r == Err(old(Guard(svc, id, user)).error) && svc.events == old(svc.events)
    ensures old(Guard(svc, id, user)).Ok? && (bindingErrors || EndBeforeStart(dto.startDate, dto.endDate)) ==>
      r == Ok(EditForm(dto)) && svc.events == old(svc.events)
    ensures old(Guard(svc, id, user)).Ok? && !(bindingErrors || EndBeforeStart(dto.startDate, dto.endDate)) ==>
      && r == Ok(RedirectToEvents(UpdatedMessage))
      && svc.events == old(svc.events)[id := Edited(old(svc.events)[id], dto)]
  {
    var guard := Guard(svc, id, user);
    if guard.Err? {
      return Err(guard.error);
    }
    if bindingErrors || EndBeforeStart(dto.startDate, dto.endDate) {
      return Ok(EditForm(dto));
    }
    // the guard has found the event and the dates are in order, so the update succeeds
    var _ := svc.Update(id, dto);
    r := Ok(RedirectToEvents(UpdatedMessage));
  }

  /**
   * `deleteEvent`, behind its guard. The guard and the service agree on every event with a
   * creator, so a permitted delete then removes it; an event without a creator still fails
   * in the service.
   */
  method DeleteEvent(svc: EventService, id: Uuid, user: User) returns (r: Result<Page, EventError>)
    requires svc.Valid()
    modifies svc
    ensures svc.Valid()
    ensures old(Guard(svc, id, user)).Err? ==> r == Err(old(Guard(svc, id, user)).error) && svc.events == old(svc.events)
    ensures old(Guard(svc, id, user)).Ok? && old(svc.events)[id].creator.Some? ==>
      r == Ok(RedirectToEvents("")) && svc.events == old(svc.events) - {id}
    ensures old(Guard(svc, id, user)).Ok? && old(svc.events)[id].creator.None? ==>
      r == Err(NullCreator) && svc.events == old(svc.events)
  {
    var guard := Guard(svc, id, user);
    if guard.Err? {
      return Err(guard.error);
    }
    var deleted := svc.Delete(id, user);
    if deleted.Err? {
      return Err(deleted.error);
    }
    r := Ok(RedirectToEvents(""));
  }
}
