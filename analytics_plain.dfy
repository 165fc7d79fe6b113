/**
 * The second copy of the analytics handlers, which stores whatever it receives: negative
 * seat counts and negative prices included.
 */
module AnalyticsPlain {
  import opened Common
  import opened Dtos
  import opened Analytics

  /** `addEvent`: stored without any check. */
  method AddEvent(store: AnalyticsStore, dto: EventAnalyticsDTO)
    modifies store
    ensures store.events == Saved(old(store.events), Event(dto.id, dto.name, dto.totalSeats, dto.price), EventKey)
    ensures Event(dto.id, dto.name, dto.totalSeats, dto.price) in store.events
    ensures store.bookings == old(store.bookings) && store.users == old(store.users)
  {
    store.SaveEvent(Event(dto.id, dto.name, dto.totalSeats, dto.price));
  }

  /** `confirmBooking`: stored without any check. */
  method ConfirmBooking(store: AnalyticsStore, dto: BookingAnalyticsDTO)
    modifies store
    ensures store.bookings == Saved(old(store.bookings),
                                    Booking(dto.id, dto.eventId, dto.userId, dto.seatsBooked, dto.price), BookingKey)
    ensures Booking(dto.id, dto.eventId, dto.userId, dto.seatsBooked, dto.price) in store.bookings
    ensures store.events == old(store.events) && store.users == old(store.users)
  {
    store.SaveBooking(Booking(dto.id, dto.eventId, dto.userId, dto.seatsBooked, dto.price));
  }

  /** `addUser`. */
  method AddUser(store: AnalyticsStore, dto: UserAnalyticsDTO)
    modifies store
    ensures store.users == Saved(old(store.users), User(dto.id, dto.username), UserKey)
    ensures store.events == old(store.events) && store.bookings == old(store.bookings)
  {
    store.SaveUser(User(dto.id, dto.username));
  }
}
