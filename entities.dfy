/** The persistent records of the main application: users, events and bookings. */
module Entities {
  import opened Common

  /** A user's role; the first registered user becomes ADMIN. */
  datatype Role = ADMIN | USER

  /** The text `Role.toString()` and `Role.name()` yield. */
  function RoleName(r: Role): (s: string)
    ensures s == "ADMIN" <==> r == ADMIN
  {
    match r
    case ADMIN => "ADMIN"
    case USER => "USER"
  }

  datatype User = User(
    id: Uuid,
    username: string,
    email: string,
    password: string,          // already encoded; the encoder is not part of this model
    role: Role,
    name: Option<string>,
    age: Option<int>,
    active: bool,
    createdAt: Instant)

  /** The three states of a booking. */
  datatype BookingStatus = PENDING | CONFIRMED | CANCELLED

  /**
   * An event. `price` is in cents. `creator` is absent for events that were stored
   * without an owner.
   */
  datatype Event = Event(
    id: Uuid,
    name: string,
    description: string,
    startDate: Instant,
    endDate: Instant,
    venue: string,
    location: string,
    price: int,
    totalSeats: int,
    availableSeats: int,
    creator: Option<User>)

  /**
   * A booking. It refers to its user and its event by id; `totalPrice` (cents) stays 0
   * until the booking is confirmed, and `qrCode` is attached on confirmation.
   */
  datatype Booking = Booking(
    id: Uuid,
    userId: Uuid,
    eventId: Uuid,
    seatsBooked: int,
    bookedOn: Instant,
    status: BookingStatus,
    totalPrice: int,
    qrCode: Option<string>)
}
