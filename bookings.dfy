/**
 * The booking service: a booking ledger over the event repository. Creating a booking only
 * checks the seats, confirming it takes them from the event and prices it, cancelling it
 * marks it cancelled.
 *
 * Each operation is specified by a step function on a `Ledger` (the two repositories); the
 * class methods perform the same change in place and are proved equal to their step. The
 * seat accounting invariants are stated and proved on the steps.
 */
module Bookings {
  import opened Common
  import opened Entities
  import opened Dtos
  import Events

  datatype BookingError =
    | NoAvailableSeats
    | NotFoundBooking
    | AlreadyConfirmed
    | AlreadyCancelled
    | IllegalState(message: string)
    | EventNotFound          // the booking's event is no longer in the repository
    | QrGenerationFailed     // the QR collaborator failed; the transaction rolls back
    | InvalidSeats           // raised only by the corrected creation step

  const NotEnoughSeatsMessage := "Not enough available seats to confirm this booking."

  /** The event repository and the booking repository together. */
  datatype Ledger = Ledger(events: map<Uuid, Event>, bookings: map<Uuid, Booking>)

  /** `createBooking`: check, do not reserve, the seats; store a PENDING booking; save the event. */
  function CreateStep(s: Ledger, user: User, event: Event, seats: int, id: Uuid, now: Instant)
    : (out: (Result<Booking, BookingError>, Ledger))
    ensures event.availableSeats < seats ==> out == (Err(NoAvailableSeats), s)
    ensures seats <= event.availableSeats ==>
      && out.0.Ok?
      && out.0.value.id == id && out.0.value.userId == user.id && out.0.value.eventId == event.id
      && out.0.value.seatsBooked == seats && out.0.value.status == PENDING
      && out.0.value.totalPrice == 0 && out.0.value.qrCode.None?
      && out.1.bookings == s.bookings[id := out.0.value]
    ensures event.id in s.events && s.events[event.id] == event ==> out.1.events == s.events
  {
    if event.availableSeats < seats then (Err(NoAvailableSeats), s)
    else
      var b := Booking(id, user.id, event.id, seats, now, PENDING, 0, None);
      (Ok(b), Ledger(s.events[event.id := event], s.bookings[id := b]))
  }

  /**
   * `confirmBooking`: NotFoundBooking, AlreadyConfirmed (CANCELLED is not rejected), then the
   * seat re-check; on success the event loses exactly the booked seats and the booking becomes
   * CONFIRMED, priced at price * seats, with the QR code attached. If the QR code cannot be
   * generated nothing is committed.
   */
  function ConfirmStep(s: Ledger, bookingId: Uuid, qr: Option<string>)
    : (out: (Result<Booking, BookingError>, Ledger))
    ensures out.0.Err? ==> out.1 == s
    ensures bookingId !in s.bookings ==> out.0 == Err(NotFoundBooking)
    ensures bookingId in s.bookings && s.bookings[bookingId].status == CONFIRMED ==>
      out.0 == Err(AlreadyConfirmed)
    ensures bookingId in s.bookings && s.bookings[bookingId].status != CONFIRMED
            && s.bookings[bookingId].eventId in s.events
            && s.bookings[bookingId].seatsBooked > s.events[s.bookings[bookingId].eventId].availableSeats ==>
      out.0 == Err(IllegalState(NotEnoughSeatsMessage))
    ensures bookingId in s.bookings && s.bookings[bookingId].status != CONFIRMED
            && s.bookings[bookingId].eventId !in s.events ==>
      out.0 == Err(EventNotFound)
    ensures bookingId in s.bookings && s.bookings[bookingId].status != CONFIRMED
            && s.bookings[bookingId].eventId in s.events
            && s.bookings[bookingId].seatsBooked <= s.events[s.bookings[bookingId].eventId].availableSeats ==>
      && (out.0.Ok? <==> qr.Some?)
      && (qr.None? ==> out.0 == Err(QrGenerationFailed))
    ensures out.0.Ok? ==>
      && bookingId in s.bookings
      && var b := s.bookings[bookingId];
      && b.status != CONFIRMED && b.eventId in s.events
      && var e := s.events[b.eventId];
      && 0 <= e.availableSeats - b.seatsBooked
      && out.0.value == b.(status := CONFIRMED, totalPrice := e.price * b.seatsBooked, qrCode := qr)
      && qr.Some?
      && out.1.bookings == s.bookings[bookingId := out.0.value]
      && out.1.events == s.events[b.eventId := e.(availableSeats := e.availableSeats - b.seatsBooked)]
  {
    if bookingId !in s.bookings then (Err(NotFoundBooking), s)
    else
      var b := s.bookings[bookingId];
      if b.status == CONFIRMED then (Err(AlreadyConfirmed), s)
      else if b.eventId !in s.events then (Err(EventNotFound), s)
      else
        var e := s.events[b.eventId];
        if b.seatsBooked > e.availableSeats then (Err(IllegalState(NotEnoughSeatsMessage)), s)
        else if qr.None? then (Err(QrGenerationFailed), s)
        else
          var e' := e.(availableSeats := e.availableSeats - b.seatsBooked);
          var b' := b.(totalPrice := e.price * b.seatsBooked, status := CONFIRMED, qrCode := qr);
          (Ok(b'), Ledger(s.events[b.eventId := e'], s.bookings[bookingId := b']))
  }

  /** `cancelBooking`: NotFoundBooking, AlreadyCancelled, else CANCELLED; seats are not given back. */
  function CancelStep(s: Ledger, bookingId: Uuid): (out: (Result<Booking, BookingError>, Ledger))
    ensures out.1.events == s.events
    ensures out.0.Err? ==> out.1 == s
    ensures bookingId !in s.bookings ==> out.0 == Err(NotFoundBooking)
    ensures bookingId in s.bookings && s.bookings[bookingId].status == CANCELLED ==>
      out.0 == Err(AlreadyCancelled)
    ensures bookingId in s.bookings && s.bookings[bookingId].status != CANCELLED ==>
      && out.0 == Ok(s.bookings[bookingId].(status := CANCELLED))
      && out.1.bookings == s.bookings[bookingId := out.0.value]
  {
    if bookingId !in s.bookings then (Err(NotFoundBooking), s)
    else
      var b := s.bookings[bookingId];
      if b.status == CANCELLED then (Err(AlreadyCancelled), s)
      else
        var b' := b.(status := CANCELLED);
        (Ok(b'), Ledger(s.events, s.bookings[bookingId := b']))
  }

  /** The creation step with the missing guard: at least one seat must be requested. */
  function CreateCheckedStep(s: Ledger, user: User, event: Event, seats: int, id: Uuid, now: Instant)
    : (out: (Result<Booking, BookingError>, Ledger))
    ensures seats <= 0 ==> out == (Err(InvalidSeats), s)
    ensures seats > 0 ==> out == CreateStep(s, user, event, seats, id, now)
  {
    if seats <= 0 then (Err(InvalidSeats), s) else CreateStep(s, user, event, seats, id, now)
  }

  /** The confirmation step with the missing guard: a CANCELLED booking cannot be confirmed. */
  function ConfirmCheckedStep(s: Ledger, bookingId: Uuid, qr: Option<string>)
    : (out: (Result<Booking, BookingError>, Ledger))
    ensures bookingId in s.bookings && s.bookings[bookingId].status == CANCELLED ==>
      out == (Err(AlreadyCancelled), s)
    ensures !(bookingId in s.bookings && s.bookings[bookingId].status == CANCELLED) ==>
      out == ConfirmStep(s, bookingId, qr)
  {
    if bookingId in s.bookings && s.bookings[bookingId].status == CANCELLED then (Err(AlreadyCancelled), s)
    else ConfirmStep(s, bookingId, qr)
  }

  // ---------------------------------------------------------------------------------------
  // Seat accounting

  /** The seats a booking holds against an event: its seat count while it is CONFIRMED. */
  function Held(b: Booking, eventId: Uuid): int {
    if b.eventId == eventId && b.status == CONFIRMED then b.seatsBooked else 0
  }

  /** The seats all CONFIRMED bookings of an event hold. */
  ghost function CommittedSeats(bookings: map<Uuid, Booking>, eventId: Uuid): int
    decreases |bookings|
  {
    if bookings == map[] then 0
    else
      var k :| k in bookings;
      Held(bookings[k], eventId) + CommittedSeats(bookings - {k}, eventId)
  }

  /** Any one booking can be split off the sum, not only the one the definition picks. */
  lemma {:induction false} CommittedSeatsSplit(bookings: map<Uuid, Booking>, k: Uuid, eventId: Uuid)
    requires k in bookings
    ensures CommittedSeats(bookings, eventId) == Held(bookings[k], eventId) + CommittedSeats(bookings - {k}, eventId)
    decreases |bookings|
  {
    var j :| j in bookings && CommittedSeats(bookings, eventId) == Held(bookings[j], eventId) + CommittedSeats(bookings - {j}, eventId);
    if j != k {
      var rest := bookings - {j} - {k};
      assert bookings - {j} - {k} == bookings - {k} - {j};
      CommittedSeatsSplit(bookings - {j}, k, eventId);
      CommittedSeatsSplit(bookings - {k}, j, eventId);
    }
  }

  /** Writing one booking changes the sum by the difference of what the old and new hold. */
  lemma CommittedSeatsUpdate(bookings: map<Uuid, Booking>, k: Uuid, b: Booking, eventId: Uuid)
    ensures CommittedSeats(bookings[k := b], eventId)
         == CommittedSeats(bookings, eventId) - (if k in bookings then Held(bookings[k], eventId) else 0) + Held(b, eventId)
  {
    CommittedSeatsSplit(bookings[k := b], k, eventId);
    assert bookings[k := b] - {k} == bookings - {k};
    if k in bookings {
      CommittedSeatsSplit(bookings, k, eventId);
    } else {
      assert bookings - {k} == bookings;
    }
  }

  /** With no negative seat counts, no event has a negative committed total. */
  lemma {:induction false} CommittedSeatsNonNegative(bookings: map<Uuid, Booking>, eventId: Uuid)
    requires forall k :: k in bookings ==> bookings[k].seatsBooked >= 0
    ensures CommittedSeats(bookings, eventId) >= 0
    decreases |bookings|
  {
    if bookings != map[] {
      var k :| k in bookings;
      CommittedSeatsSplit(bookings, k, eventId);
      CommittedSeatsNonNegative(bookings - {k}, eventId);
    }
  }

  /** No event has a negative seat count. */
  ghost predicate SeatsNonNegative(s: Ledger) {
    forall eid :: eid in s.events ==> s.events[eid].availableSeats >= 0
  }

  /** Seats available plus seats held by confirmed bookings never exceed the capacity. */
  ghost predicate Accounted(s: Ledger) {
    forall eid :: eid in s.events ==>
      s.events[eid].availableSeats + CommittedSeats(s.bookings, eid) <= s.events[eid].totalSeats
  }

  /** Every booking asks for at least one seat. */
  ghost predicate PositiveBookings(s: Ledger) {
    forall k :: k in s.bookings ==> s.bookings[k].seatsBooked >= 1
  }

  /** The states the service is meant to stay in. */
  ghost predicate LedgerSound(s: Ledger) {
    SeatsNonNegative(s) && Accounted(s) && PositiveBookings(s)
  }

  /** In a sound ledger no event is oversold and none shows more free seats than it has. */
  lemma {:induction false} SoundMeansCapacityRespected(s: Ledger, eid: Uuid)
    requires LedgerSound(s) && eid in s.events
    ensures 0 <= s.events[eid].availableSeats <= s.events[eid].totalSeats
    ensures 0 <= CommittedSeats(s.bookings, eid) <= s.events[eid].totalSeats
  {
    CommittedSeatsNonNegative(s.bookings, eid);
  }

  /** Creating a booking keeps seats non-negative and accounted, whatever the seat count. */
  lemma CreateKeepsAccounting(s: Ledger, user: User, event: Event, seats: int, id: Uuid, now: Instant)
    requires event.id in s.events && s.events[event.id] == event
    requires id !in s.bookings
    requires SeatsNonNegative(s) && Accounted(s)
    ensures var s' := CreateStep(s, user, event, seats, id, now).1;
      SeatsNonNegative(s') && Accounted(s')
  {
    var out := CreateStep(s, user, event, seats, id, now);
    if out.0.Ok? {
      forall eid | eid in s.events
        ensures CommittedSeats(out.1.bookings, eid) == CommittedSeats(s.bookings, eid)
      {
        CommittedSeatsUpdate(s.bookings, id, out.0.value, eid);
      }
    }
  }

  /** Creating a booking for at least one seat keeps a sound ledger sound. */
  lemma CreateKeepsSound(s: Ledger, user: User, event: Event, seats: int, id: Uuid, now: Instant)
    requires event.id in s.events && s.events[event.id] == event
    requires id !in s.bookings
    requires LedgerSound(s) && seats >= 1
    ensures LedgerSound(CreateStep(s, user, event, seats, id, now).1)
  {
    var out := CreateStep(s, user, event, seats, id, now);
    if out.0.Ok? {
      forall eid | eid in s.events
        ensures CommittedSeats(out.1.bookings, eid) == CommittedSeats(s.bookings, eid)
      {
        CommittedSeatsUpdate(s.bookings, id, out.0.value, eid);
      }
    }
  }

  /** The corrected creation step keeps a sound ledger sound for every seat count. */
  lemma CreateCheckedKeepsSound(s: Ledger, user: User, event: Event, seats: int, id: Uuid, now: Instant)
    requires event.id in s.events && s.events[event.id] == event
    requires id !in s.bookings
    requires LedgerSound(s)
    ensures LedgerSound(CreateCheckedStep(s, user, event, seats, id, now).1)
  {
    if seats > 0 {
      CreateKeepsSound(s, user, event, seats, id, now);
    }
  }

  /**
   * Confirming moves exactly the booked seats from "available" to "held": every event keeps
   * its available + committed total, and no event goes below zero seats.
   */
  lemma ConfirmKeepsTotals(s: Ledger, bookingId: Uuid, qr: Option<string>, eid: Uuid)
    requires eid in s.events
    ensures var s' := ConfirmStep(s, bookingId, qr).1;
      && eid in s'.events
      && s'.events[eid].totalSeats == s.events[eid].totalSeats
      && s'.events[eid].availableSeats + CommittedSeats(s'.bookings, eid)
         == s.events[eid].availableSeats + CommittedSeats(s.bookings, eid)
  {
    var out := ConfirmStep(s, bookingId, qr);
    if out.0.Ok? {
      CommittedSeatsUpdate(s.bookings, bookingId, out.0.value, eid);
    }
  }

  /** Confirming keeps a sound ledger sound. */
  lemma ConfirmKeepsSound(s: Ledger, bookingId: Uuid, qr: Option<string>)
    requires LedgerSound(s)
    ensures LedgerSound(ConfirmStep(s, bookingId, qr).1)
  {
    var s' := ConfirmStep(s, bookingId, qr).1;
    forall eid | eid in s'.events
      ensures s'.events[eid].availableSeats + CommittedSeats(s'.bookings, eid) <= s'.events[eid].totalSeats
    {
      ConfirmKeepsTotals(s, bookingId, qr, eid);
    }
  }

  /** Cancelling gives up the seats a confirmed booking held without returning them to the event. */
  lemma CancelReleasesNothing(s: Ledger, bookingId: Uuid, eid: Uuid)
    requires bookingId in s.bookings
    ensures var s' := CancelStep(s, bookingId).1;
      && s'.events == s.events
      && CommittedSeats(s'.bookings, eid) == CommittedSeats(s.bookings, eid) - Held(s.bookings[bookingId], eid)
  {
    var out := CancelStep(s, bookingId);
    CommittedSeatsUpdate(s.bookings, bookingId, s.bookings[bookingId].(status := CANCELLED), eid);
  }

  /** Cancelling keeps a sound ledger sound. */
  lemma CancelKeepsSound(s: Ledger, bookingId: Uuid)
    requires LedgerSound(s)
    ensures LedgerSound(CancelStep(s, bookingId).1)
  {
    if bookingId in s.bookings {
      forall eid | eid in s.events
        ensures CommittedSeats(CancelStep(s, bookingId).1.bookings, eid) <= CommittedSeats(s.bookings, eid)
      {
        CancelReleasesNothing(s, bookingId, eid);
      }
    }
  }

  /** A booking's seats are taken from its event at most once: a second confirm is refused. */
  lemma ConfirmTwiceRefused(s: Ledger, bookingId: Uuid, qr1: Option<string>, qr2: Option<string>)
    requires ConfirmStep(s, bookingId, qr1).0.Ok?
    ensures var s' := ConfirmStep(s, bookingId, qr1).1;
      ConfirmStep(s', bookingId, qr2) == (Err(AlreadyConfirmed), s')
  {
  }

  // ---------------------------------------------------------------------------------------
  // Booking lifecycle: PENDING -> CONFIRMED -> CANCELLED, or PENDING -> CANCELLED

  predicate Follows(before: BookingStatus, after: BookingStatus) {
    before == after || before == PENDING || (before == CONFIRMED && after == CANCELLED)
  }

  /** No booking disappears and every status change is a lifecycle step. */
  ghost predicate LifecycleRespected(s: Ledger, s': Ledger) {
    forall k :: k in s.bookings ==>
      k in s'.bookings && Follows(s.bookings[k].status, s'.bookings[k].status)
  }

  lemma CreateRespectsLifecycle(s: Ledger, user: User, event: Event, seats: int, id: Uuid, now: Instant)
    requires id !in s.bookings
    ensures LifecycleRespected(s, CreateStep(s, user, event, seats, id, now).1)
  {
  }

  lemma CancelRespectsLifecycle(s: Ledger, bookingId: Uuid)
    ensures LifecycleRespected(s, CancelStep(s, bookingId).1)
  {
  }

  lemma ConfirmCheckedRespectsLifecycle(s: Ledger, bookingId: Uuid, qr: Option<string>)
    ensures LifecycleRespected(s, ConfirmCheckedStep(s, bookingId, qr).1)
  {
  }

  /**
   * As written, confirmation only refuses CONFIRMED bookings: a CANCELLED booking with enough
   * seats left is confirmed again, leaving the lifecycle and taking the seats a second time
   * if it had been confirmed before.
   */
  lemma CancelledBookingIsConfirmed(s: Ledger, bookingId: Uuid, qr: Option<string>)
    requires bookingId in s.bookings && s.bookings[bookingId].status == CANCELLED
    requires s.bookings[bookingId].eventId in s.events
    requires s.bookings[bookingId].seatsBooked <= s.events[s.bookings[bookingId].eventId].availableSeats
    requires qr.Some?
    ensures ConfirmStep(s, bookingId, qr).0.Ok?
    ensures !LifecycleRespected(s, ConfirmStep(s, bookingId, qr).1)
  {
    var s' := ConfirmStep(s, bookingId, qr).1;
    assert !Follows(s.bookings[bookingId].status, s'.bookings[bookingId].status);
  }

  /**
   * As written, a booking for a negative number of seats passes the creation check, and its
   * confirmation raises the event's available seats above its capacity.
   */
  lemma NegativeBookingOverfills()
    ensures var host := User(1, "host", "host@example.com", "pw", ADMIN, None, None, true, 0);
      var e := Event(10, "Gig", "", 0, 1, "Hall", "Town", 5, 10, 10, Some(host));
      var s := Ledger(map[10 := e], map[]);
      var s1 := CreateStep(s, host, e, -2, 20, 0).1;
      var s2 := ConfirmStep(s1, 20, Some("qr")).1;
      && LedgerSound(s) && !LedgerSound(s1)
      && s2.events[10].availableSeats == 12 > s2.events[10].totalSeats
  {
    var host := User(1, "host", "host@example.com", "pw", ADMIN, None, None, true, 0);
    var e := Event(10, "Gig", "", 0, 1, "Hall", "Town", 5, 10, 10, Some(host));
    var s := Ledger(map[10 := e], map[]);
    var s1 := CreateStep(s, host, e, -2, 20, 0).1;
    assert s1.bookings[20].seatsBooked == -2;
    assert CommittedSeats(s.bookings, 10) == 0;
  }

  // ---------------------------------------------------------------------------------------
  // The service

  /** `mapToDTO`: the analytics record of a booking; its price is the booking's total price. */
  function MapToDTO(b: Booking): (d: BookingAnalyticsDTO)
    ensures d.id == b.id && d.eventId == b.eventId && d.userId == b.userId
    ensures d.seatsBooked == b.seatsBooked && d.price == b.totalPrice
  {
    BookingAnalyticsDTO(b.id, b.eventId, b.userId, b.seatsBooked, b.totalPrice)
  }

  class BookingService {
    /** The booking repository, keyed by booking id. */
    var bookings: map<Uuid, Booking>
    /** The event service the bookings draw their seats from. */
    const eventService: Events.EventService

    ghost function State(): Ledger
      reads this, eventService
    {
      Ledger(eventService.events, bookings)
    }

    ghost predicate Valid()
      reads this, eventService
    {
      && eventService.Valid()
      && forall k :: k in bookings ==> bookings[k].id == k
    }

    /** The seat accounting invariants hold of the current repositories. */
    ghost predicate Sound()
      reads this, eventService
    {
      LedgerSound(State())
    }

    constructor (eventService: Events.EventService)
      requires eventService.Valid()
      ensures Valid() && bookings == map[] && this.eventService == eventService
    {
      bookings := map[];
      this.eventService := eventService;
    }

    /** `getBooking`: the stored booking, or NotFoundBooking. */
    function GetBooking(id: Uuid): (r: Result<Booking, BookingError>)
      reads this
      ensures r.Ok? <==> id in bookings
      ensures r.Ok? ==> r.value == bookings[id]
      ensures r.Err? ==> r.error == NotFoundBooking
    {
      if id in bookings then Ok(bookings[id]) else Err(NotFoundBooking)
    }

    /** `createBooking`; `id` and `now` are the generated identity and the clock reading. */
    method CreateBooking(user: User, event: Event, seats: int, id: Uuid, now: Instant)
      returns (r: Result<Booking, BookingError>)
      requires Valid()
      requires id !in bookings
      modifies this, eventService
      ensures Valid()
      ensures (r, State()) == CreateStep(old(State()), user, event, seats, id, now)
      ensures (old(Sound()) && seats >= 1 && event.id in old(eventService.events)
               && old(eventService.events)[event.id] == event) ==> Sound()
    {
      ghost var s := State();
      if event.availableSeats < seats {
        return Err(NoAvailableSeats);
      }
      var booking := Booking(id, user.id, event.id, seats, now, PENDING, 0, None);
      bookings := bookings[id := booking];
      eventService.Save(event);
      r := Ok(booking);
      if LedgerSound(s) && seats >= 1 && event.id in s.events && s.events[event.id] == event {
        CreateKeepsSound(s, user, event, seats, id, now);
      }
    }

    /** The creation with the missing seat-count guard. */
    method CreateBookingChecked(user: User, event: Event, seats: int, id: Uuid, now: Instant)
      returns (r: Result<Booking, BookingError>)
      requires Valid()
      requires id !in bookings
      modifies this, eventService
      ensures Valid()
      ensures (r, State()) == CreateCheckedStep(old(State()), user, event, seats, id, now)
      ensures (old(Sound()) && event.id in old(eventService.events)
               && old(eventService.events)[event.id] == event) ==> Sound()
    {
      if seats <= 0 {
        return Err(InvalidSeats);
      }
      r := CreateBooking(user, event, seats, id, now);
    }

    /**
     * `confirmBooking`; `qr` is what the QR code generator returns for the booking (None when
     * it fails, in which case nothing is written).
     */
    method ConfirmBooking(bookingId: Uuid, qr: Option<string>) returns (r: Result<Booking, BookingError>)
      requires Valid()
      modifies this, eventService
      ensures Valid()
      ensures (r, State()) == ConfirmStep(old(State()), bookingId, qr)
      ensures old(Sound()) ==> Sound()
    {
      ghost var s := State();
      var found := GetBooking(bookingId);
      if found.Err? {
        return Err(NotFoundBooking);
      }
      var booking := found.value;
      if booking.status == CONFIRMED {
        return Err(AlreadyConfirmed);
      }
      var lookup := eventService.FindById(booking.eventId);
      if lookup.Err? {
        return Err(EventNotFound);
      }
      var event := lookup.value;
      if booking.seatsBooked > event.availableSeats {
        return Err(IllegalState(NotEnoughSeatsMessage));
      }
      if qr.None? {
        return Err(QrGenerationFailed);
      }
      event := event.(availableSeats := event.availableSeats - booking.seatsBooked);
      eventService.Save(event);
      booking := booking.(totalPrice := event.price * booking.seatsBooked, status := CONFIRMED, qrCode := qr);
      bookings := bookings[bookingId := booking];
      r := Ok(booking);
      if LedgerSound(s) {
        ConfirmKeepsSound(s, bookingId, qr);
      }
    }

    /** The confirmation with the missing guard against CANCELLED bookings. */
    method ConfirmBookingChecked(bookingId: Uuid, qr: Option<string>) returns (r: Result<Booking, BookingError>)
      requires Valid()
      modifies this, eventService
      ensures Valid()
      ensures (r, State()) == ConfirmCheckedStep(old(State()), bookingId, qr)
      ensures old(Sound()) ==> Sound()
    {
      var found := GetBooking(bookingId);
      if found.Ok? && found.value.status == CANCELLED {
        return Err(AlreadyCancelled);
      }
      r := ConfirmBooking(bookingId, qr);
    }

    /** `cancelBooking`. */
    method CancelBooking(bookingId: Uuid) returns (r: Result<Booking, BookingError>)
      requires Valid()
      modifies this
      ensures Valid()
      ensures (r, State()) == CancelStep(old(State()), bookingId)
      ensures old(Sound()) ==> Sound()
    {
      ghost var s := State();
      var found := GetBooking(bookingId);
      if found.Err? {
        return Err(NotFoundBooking);
      }
      var booking := found.value;
      if booking.status == CANCELLED {
        return Err(AlreadyCancelled);
      }
      booking := booking.(status := CANCELLED);
      bookings := bookings[bookingId := booking];
      r := Ok(booking);
      if LedgerSound(s) {
        CancelKeepsSound(s, bookingId);
      }
    }
  }
}
