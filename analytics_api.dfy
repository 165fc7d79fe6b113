/**
 * The analytics service's REST handlers that store incoming records, in the copy that
 * checks its input: a negative seat count or a negative price is refused and nothing is
 * stored.
 */
module AnalyticsApi {
  import opened Common
  import opened Dtos
  import opened Analytics

  datatype ApiError =
    | InvalidEventData(message: string)   // answered as 400 "Invalid event data"
    | IllegalArgument(message: string)    // answered as 400 "Invalid argument"

  const NegativeSeatsMessage := "Total seats cannot be negative"
  const NegativePriceMessage := "Price cannot be negative"

  /** No stored event has a negative capacity and no stored booking a negative price. */
  ghost predicate WellFormed(store: AnalyticsStore)
    reads store
  {
    && (forall e :: e in store.events ==> e.totalSeats >= 0)
    && (forall b :: b in store.bookings ==> b.price >= 0)
  }

  /** `addEvent` (POST /api/events): zero seats are accepted, negative seats refused. */
  method AddEvent(store: AnalyticsStore, dto: EventAnalyticsDTO) returns (r: Result<(), ApiError>)
    modifies store
    ensures dto.totalSeats < 0 ==>
      r == Err(InvalidEventData(NegativeSeatsMessage)) && store.events == old(store.events)
    ensures dto.totalSeats >= 0 ==>
      r.Ok? && store.events == Saved(old(store.events), Event(dto.id, dto.name, dto.totalSeats, dto.price), EventKey)
    ensures store.bookings == old(store.bookings) && store.users == old(store.users)
    ensures old(WellFormed(store)) ==> WellFormed(store)
  {
    if dto.totalSeats < 0 {
      return Err(InvalidEventData(NegativeSeatsMessage));
    }
    store.SaveEvent(Event(dto.id, dto.name, dto.totalSeats, dto.price));
    r := Ok(());
  }

  /** `confirmBooking` (POST /api/bookings): a negative price is refused; otherwise the fields are stored as sent. */
  method ConfirmBooking(store: AnalyticsStore, dto: BookingAnalyticsDTO) returns (r: Result<(), ApiError>)
    modifies store
    ensures dto.price < 0 ==>
      r == Err(IllegalArgument(NegativePriceMessage)) && store.bookings == old(store.bookings)
    ensures dto.price >= 0 ==>
      && r.Ok?
      && store.bookings == Saved(old(store.bookings),
                                 Booking(dto.id, dto.eventId, dto.userId, dto.seatsBooked, dto.price), BookingKey)
    ensures store.events == old(store.events) && store.users == old(store.users)
    ensures old(WellFormed(store)) ==> WellFormed(store)
  {
    if dto.price < 0 {
      return Err(IllegalArgument(NegativePriceMessage));
    }
    store.SaveBooking(Booking(dto.id, dto.eventId, dto.userId, dto.seatsBooked, dto.price));
    r := Ok(());
  }

  /** `addUser` (POST /api/users). */
  method AddUser(store: AnalyticsStore, dto: UserAnalyticsDTO)
    modifies store
    ensures store.users == Saved(old(store.users), User(dto.id, dto.username), UserKey)
    ensures store.events == old(store.events) && store.bookings == old(store.bookings)
    ensures old(WellFormed(store)) ==> WellFormed(store)
  {
    store.SaveUser(User(dto.id, dto.username));
  }
}
