/** The data transfer objects the services and controllers exchange. */
module Dtos {
  import opened Common
  import opened Entities

  datatype UserDTO = UserDTO(
    id: Uuid,
    username: string,
    email: string,
    role: string,
    name: Option<string>,
    age: Option<int>,
    joinedAt: Instant)

  /**
   * The view of an event. Dates are optional because the form binds them from user input;
   * `canBook` and `canEditDelete` default to false.
   */
  datatype EventDTO = EventDTO(
    id: Option<Uuid>,
    name: string,
    description: string,
    startDate: Option<Instant>,
    endDate: Option<Instant>,
    venue: string,
    location: string,
    price: int,
    totalSeats: int,
    availableSeats: Option<int>,
    creator: Option<UserDTO>,
    canBook: bool,
    canEditDelete: bool)

  /** The edit form: every field may be left empty (null). */
  datatype EditEventDTO = EditEventDTO(
    name: Option<string>,
    description: Option<string>,
    startDate: Option<Instant>,
    endDate: Option<Instant>,
    venue: Option<string>,
    location: Option<string>,
    price: Option<int>,
    totalSeats: Option<int>,
    availableSeats: Option<int>)

  datatype EventAnalyticsDTO = EventAnalyticsDTO(id: Uuid, name: string, totalSeats: int, price: int)

  datatype BookingAnalyticsDTO = BookingAnalyticsDTO(id: Uuid, eventId: Uuid, userId: Uuid, seatsBooked: int, price: int)

  datatype UserAnalyticsDTO = UserAnalyticsDTO(id: Uuid, username: string)

  datatype UserRegistrationDTO = UserRegistrationDTO(username: string, email: string, password: string)

  /**
   * The public view of a user. `UserService.mapToDTO` and the creator view inside
   * `EventService.mapToDTO` build the same seven fields.
   */
  function UserView(u: User): (d: UserDTO)
    ensures d.id == u.id && d.username == u.username && d.email == u.email
    ensures d.role == RoleName(u.role) && d.name == u.name && d.age == u.age
    ensures d.joinedAt == u.createdAt
  {
    UserDTO(u.id, u.username, u.email, RoleName(u.role), u.name, u.age, u.createdAt)
  }
}
