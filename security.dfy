/**
 * The authorization predicates the edit and delete endpoints are guarded by. Both look the
 * event up first, so an unknown event id raises EventNotFound.
 */
module Security {
  import opened Common
  import opened Entities
  import opened Events

  /** `isOwner`: false for an event without a creator, otherwise whether the creator is `userId`. */
  function IsOwner(svc: EventService, eventId: Uuid, userId: Uuid): (r: Result<bool, EventError>)
    reads svc
    ensures eventId !in svc.events ==> r == Err(EventNotFound)
    ensures eventId in svc.events && svc.events[eventId].creator.None? ==> r == Ok(false)
    ensures eventId in svc.events && svc.events[eventId].creator.Some? ==>
      r.Ok? && (r.value <==> svc.events[eventId].creator.value.id == userId)
  {
    var found := svc.FindById(eventId);
    if found.Err? then Err(found.error)
    else if found.value.creator.None? then Ok(false)
    else Ok(found.value.creator.value.id == userId)
  }

  /** `canEditOrDelete`: an administrator, or the owner while seats remain. */
  function CanEditOrDelete(svc: EventService, eventId: Uuid, userId: Uuid, role: string): (r: Result<bool, EventError>)
    reads svc
    ensures eventId !in svc.events ==> r == Err(EventNotFound)
    ensures eventId in svc.events ==> r.Ok?
    ensures r.Ok? ==> (r.value <==> role == "ADMIN" || (IsOwner(svc, eventId, userId) == Ok(true) && svc.events[eventId].availableSeats > 0))
  {
    var found := svc.FindById(eventId);
    if found.Err? then Err(found.error)
    else
      var isAdmin := "ADMIN" == role;
      var isOwner := IsOwner(svc, eventId, userId) == Ok(true);
      var isActive := found.value.availableSeats > 0;
      Ok(isAdmin || (isOwner && isActive))
  }

  /** The rule in terms of the event alone. */
  predicate Permits(e: Event, userId: Uuid, role: string) {
    role == "ADMIN" || (e.creator.Some? && e.creator.value.id == userId && e.availableSeats > 0)
  }

  lemma CanEditOrDeleteIsPermits(svc: EventService, eventId: Uuid, userId: Uuid, role: string)
    requires eventId in svc.events
    ensures CanEditOrDelete(svc, eventId, userId, role) == Ok(Permits(svc.events[eventId], userId, role))
  {
  }

  /** An administrator may edit or delete any existing event, whatever its seats or owner. */
  lemma AdminAlwaysPermitted(svc: EventService, eventId: Uuid, userId: Uuid)
    requires eventId in svc.events
    ensures CanEditOrDelete(svc, eventId, userId, "ADMIN") == Ok(true)
  {
  }

  /** A non-administrator is refused on a sold-out event, even as its owner. */
  lemma SoldOutRefusesNonAdmin(svc: EventService, eventId: Uuid, userId: Uuid, role: string)
    requires eventId in svc.events && svc.events[eventId].availableSeats <= 0
    requires role != "ADMIN"
    ensures CanEditOrDelete(svc, eventId, userId, role) == Ok(false)
  {
  }

  /**
   * For an event with a creator, the endpoint guard and the service's own check in `delete`
   * reach the same decision for the requesting user.
   */
  lemma GuardAgreesWithDelete(svc: EventService, eventId: Uuid, user: User)
    requires eventId in svc.events && svc.events[eventId].creator.Some?
    ensures CanEditOrDelete(svc, eventId, user.id, RoleName(user.role)) == Ok(DeleteVerdict(svc.events[eventId], user).Ok?)
  {
  }

  /** For every event, the guard agrees with the null-safe delete decision. */
  lemma GuardAgreesWithNullSafeDelete(svc: EventService, eventId: Uuid, user: User)
    requires eventId in svc.events
    ensures CanEditOrDelete(svc, eventId, user.id, RoleName(user.role)) == Ok(DeleteVerdictNullSafe(svc.events[eventId], user).Ok?)
  {
  }
}
