/**
 * The analytics service's data: its own copies of events, bookings and users, each kept in a
 * repository whose `save` inserts a new row or replaces the row with the same id.
 */
module Analytics {
  import opened Common

  /** An event as the analytics service stores it (price in cents). */
  datatype Event = Event(id: Uuid, name: string, totalSeats: int, price: int)

  /** A confirmed booking as the analytics service stores it (price in cents). */
  datatype Booking = Booking(id: Uuid, eventId: Uuid, userId: Uuid, seatsBooked: int, price: int)

  datatype User = User(id: Uuid, username: string)

  /** The position of the first row whose key is `id`. */
  function IndexOfKey<T>(rows: seq<T>, key: T -> Uuid, id: Uuid): (r: Option<nat>)
    ensures r.None? ==> forall i :: 0 <= i < |rows| ==> key(rows[i]) != id
    ensures r.Some? ==> r.value < |rows| && key(rows[r.value]) == id
  {
    if rows == [] then None
    else if key(rows[0]) == id then Some(0)
    else
      var rest := IndexOfKey(rows[1..], key, id);
      if rest.None? then None else Some(rest.value + 1)
  }

  /**
   * The repository after `save(row)`: the row replaces the stored row with the same key, or
   * is appended when there is none. Rows with other keys are kept in place.
   */
  function Saved<T>(rows: seq<T>, row: T, key: T -> Uuid): (r: seq<T>)
    ensures row in r
    ensures |r| == |rows| || |r| == |rows| + 1
    ensures |r| == |rows| + 1 <==> forall i :: 0 <= i < |rows| ==> key(rows[i]) != key(row)
    ensures forall i :: 0 <= i < |rows| && key(rows[i]) != key(row) ==> i < |r| && r[i] == rows[i]
    ensures forall x :: x in r ==> x == row || x in rows
  {
    var i := IndexOfKey(rows, key, key(row));
    if i.None? then rows + [row]
    else
      var r := rows[i.value := row];
      assert r[i.value] == row;
      r
  }

  /** Saving the same row twice stores it once. */
  lemma {:induction false} SaveIdempotent<T>(rows: seq<T>, row: T, key: T -> Uuid)
    ensures Saved(Saved(rows, row, key), row, key) == Saved(rows, row, key)
  {
    var once := Saved(rows, row, key);
    var i := IndexOfKey(once, key, key(row));
    var j := IndexOfKey(rows, key, key(row));
    if j.None? {
      FirstKeyAfterAppend(rows, row, key);
    } else {
      FirstKeyAfterReplace(rows, j.value, row, key);
    }
  }

  lemma {:induction false} FirstKeyAfterAppend<T>(rows: seq<T>, row: T, key: T -> Uuid)
    requires forall i :: 0 <= i < |rows| ==> key(rows[i]) != key(row)
    ensures IndexOfKey(rows + [row], key, key(row)) == Some(|rows|)
  {
    if rows != [] {
      assert (rows + [row])[1..] == rows[1..] + [row];
      FirstKeyAfterAppend(rows[1..], row, key);
    }
  }

  lemma {:induction false} FirstKeyAfterReplace<T>(rows: seq<T>, j: nat, row: T, key: T -> Uuid)
    requires IndexOfKey(rows, key, key(row)) == Some(j)
    ensures IndexOfKey(rows[j := row], key, key(row)) == Some(j)
  {
    if j > 0 {
      assert rows[j := row][1..] == rows[1..][j - 1 := row];
      FirstKeyAfterReplace(rows[1..], j - 1, row, key);
    }
  }

  function EventKey(e: Event): Uuid { e.id }
  function BookingKey(b: Booking): Uuid { b.id }
  function UserKey(u: User): Uuid { u.id }

  /** The three repositories of the analytics service. */
  class AnalyticsStore {
    var events: seq<Event>
    var bookings: seq<Booking>
    var users: seq<User>

    constructor ()
      ensures events == [] && bookings == [] && users == []
    {
      events := [];
      bookings := [];
      users := [];
    }

    method SaveEvent(e: Event)
      modifies this
      ensures events == Saved(old(events), e, EventKey)
      ensures bookings == old(bookings) && users == old(users)
    {
      events := Saved(events, e, EventKey);
    }

    method SaveBooking(b: Booking)
      modifies this
      ensures bookings == Saved(old(bookings), b, BookingKey)
      ensures events == old(events) && users == old(users)
    {
      bookings := Saved(bookings, b, BookingKey);
    }

    method SaveUser(u: User)
      modifies this
      ensures users == Saved(old(users), u, UserKey)
      ensures events == old(events) && bookings == old(bookings)
    {
      users := Saved(users, u, UserKey);
    }
  }
}
