/**
 * The booking pages: the seat guard in front of booking creation, the messages the confirm
 * and cancel pages show for each outcome, and the record sent to the analytics service on
 * confirmation.
 */
module BookingWeb {
  import opened Common
  import opened Entities
  import opened Dtos
  import Events
  import opened Bookings

  const SeatErrorMessage := "Invalid number of seats selected."
  const ConfirmedMessage := "Your booking has been confirmed successfully!"
  const BookingNotFoundMessage := "Booking not found."
  const AlreadyConfirmedMessage := "This booking is already confirmed."
  const ConfirmFailedMessage := "An unexpected error occurred while confirming the booking"
  const CancelledMessage := "Your booking has been cancelled successfully."
  const AlreadyCancelledMessage := "This booking has already been cancelled."
  const CancelFailedMessage := "An unexpected error occurred while cancelling the booking."

  /** The page the creation handler answers with. */
  datatype BookingPage =
    | BookingForm                          // the form again, with the validation messages
    | SeatError(message: string)           // the form again, with the seat-count message
    | BookingConfirmation(booking: Booking)

  /** The seat guard: at least one seat, and no more than the event has left. */
  predicate SeatsAcceptable(seats: int, event: Event) {
    !(seats <= 0 || seats > event.availableSeats)
  }

  /**
   * `createBooking` (PUT /bookings/create/{eventId}). An unknown event propagates
   * EventNotFound; binding errors and a refused seat count show the form and book nothing;
   * otherwise the service creates the booking with exactly the requested seats. Because of
   * the guard, this path keeps the seat accounting sound.
   */
  method CreateBooking(svc: BookingService, eventId: Uuid, seats: int, bindingErrors: bool,
                       user: User, id: Uuid, now: Instant) returns (r: Result<BookingPage, Events.EventError>)
    requires svc.Valid()
    requires id !in svc.bookings
    modifies svc, svc.eventService
    ensures svc.Valid()
    ensures eventId !in old(svc.eventService.events) ==>
      r == Err(Events.EventNotFound) && svc.State() == old(svc.State())
    ensures eventId in old(svc.eventService.events) && bindingErrors ==>
      r == Ok(BookingForm) && svc.State() == old(svc.State())
    ensures eventId in old(svc.eventService.events) && !bindingErrors
            && !SeatsAcceptable(seats, old(svc.eventService.events)[eventId]) ==>
      r == Ok(SeatError(SeatErrorMessage)) && svc.State() == old(svc.State())
    ensures eventId in old(svc.eventService.events) && !bindingErrors
            && SeatsAcceptable(seats, old(svc.eventService.events)[eventId]) ==>
      var step := CreateStep(old(svc.State()), user, old(svc.eventService.events)[eventId], seats, id, now);
      && step.0.Ok?
      && r == Ok(BookingConfirmation(step.0.value))
      && svc.State() == step.1
      && step.0.value.seatsBooked == seats
    ensures old(svc.Sound()) ==> svc.Sound()
  {
    var found := svc.eventService.FindById(eventId);
    if found.Err? {
      return Err(found.error);
    }
    var event := found.value;
    if bindingErrors {
      return Ok(BookingForm);
    }
    if seats <= 0 || seats > event.availableSeats {
      return Ok(SeatError(SeatErrorMessage));
    }
    var booking := svc.CreateBooking(user, event, seats, id, now);
    // the guard has checked the seats, so the service's own check passes
    r := Ok(BookingConfirmation(booking.value));
  }

  /** The message the confirmation page shows for each outcome of `confirmBooking`. */
  function ConfirmMessage(r: Result<Booking, BookingError>): (m: string)
    ensures r.Ok? ==> m == ConfirmedMessage
    ensures r == Err(NotFoundBooking) ==> m == BookingNotFoundMessage
    ensures r == Err(AlreadyConfirmed) ==> m == AlreadyConfirmedMessage
    ensures r.Err? && r.error.IllegalState? ==> m == r.error.message
    ensures r.Err? && !(r.error.NotFoundBooking? || r.error.AlreadyConfirmed? || r.error.IllegalState?) ==>
      m == ConfirmFailedMessage
  {
    match r
    case Ok(_) => ConfirmedMessage
    case Err(NotFoundBooking) => BookingNotFoundMessage
    case Err(AlreadyConfirmed) => AlreadyConfirmedMessage
    case Err(IllegalState(message)) => message
    case Err(_) => ConfirmFailedMessage
  }

  /** A refused confirmation caused by too few seats shows the service's own explanation. */
  lemma NotEnoughSeatsIsExplained(s: Ledger, bookingId: Uuid, qr: Option<string>)
    requires bookingId in s.bookings && s.bookings[bookingId].status != CONFIRMED
    requires s.bookings[bookingId].eventId in s.events
    requires s.bookings[bookingId].seatsBooked > s.events[s.bookings[bookingId].eventId].availableSeats
    ensures ConfirmMessage(ConfirmStep(s, bookingId, qr).0) == NotEnoughSeatsMessage
  {
  }

  /** The message the cancellation page shows for each outcome of `cancelBooking`. */
  function CancelMessage(r: Result<Booking, BookingError>): (m: string)
    ensures r.Ok? ==> m == CancelledMessage
    ensures r == Err(NotFoundBooking) ==> m == BookingNotFoundMessage
    ensures r == Err(AlreadyCancelled) ==> m == AlreadyCancelledMessage
    ensures r.Err? && !(r.error.NotFoundBooking? || r.error.AlreadyCancelled?) ==> m == CancelFailedMessage
  {
    match r
    case Ok(_) => CancelledMessage
    case Err(NotFoundBooking) => BookingNotFoundMessage
    case Err(AlreadyCancelled) => AlreadyCancelledMessage
    case Err(_) => CancelFailedMessage
  }

  /** Every outcome the cancel service can produce gets its specific message. */
  lemma CancelNeverShowsGenericMessage(s: Ledger, bookingId: Uuid)
    ensures CancelMessage(CancelStep(s, bookingId).0) != CancelFailedMessage
  {
  }

  /** The analytics record the confirm handler fills in field by field. */
  function AnalyticsSummary(b: Booking): (d: BookingAnalyticsDTO)
    ensures d == Bookings.MapToDTO(b)
  {
    var d := BookingAnalyticsDTO(0, 0, 0, 0, 0);
    d.(id := b.id, eventId := b.eventId, userId := b.userId, seatsBooked := b.seatsBooked, price := b.totalPrice)
  }

  /**
   * `confirmBooking` (POST /bookings/confirm/{bookingId}): the service call, the page message,
   * and the record sent to the analytics service when the confirmation went through.
   */
  method ConfirmBooking(svc: BookingService, bookingId: Uuid, qr: Option<string>)
    returns (message: string, sent: Option<BookingAnalyticsDTO>)
    requires svc.Valid()
    modifies svc, svc.eventService
    ensures svc.Valid()
    ensures var step := ConfirmStep(old(svc.State()), bookingId, qr);
      && svc.State() == step.1
      && message == ConfirmMessage(step.0)
      && (sent.Some? <==> step.0.Ok?)
      && (step.0.Ok? ==> sent == Some(Bookings.MapToDTO(step.0.value)))
    ensures old(svc.Sound()) ==> svc.Sound()
  {
    var r := svc.ConfirmBooking(bookingId, qr);
    message := ConfirmMessage(r);
    sent := if r.Ok? then Some(AnalyticsSummary(r.value)) else None;
  }

  /** `cancelBooking` (POST /bookings/cancel/{id}): the service call and the page message. */
  method CancelBooking(svc: BookingService, bookingId: Uuid) returns (message: string)
    requires svc.Valid()
    modifies svc
    ensures svc.Valid()
    ensures var step := CancelStep(old(svc.State()), bookingId);
      svc.State() == step.1 && message == CancelMessage(step.0)
    ensures old(svc.Sound()) ==> svc.Sound()
  {
    var r := svc.CancelBooking(bookingId);
    message := CancelMessage(r);
  }
}
