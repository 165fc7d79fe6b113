/**
 * The analytics dashboard: booking counts grouped per event and per user, the busiest
 * events and users, and the events close to selling out. Both copies of the analytics
 * controller build the dashboard the same way; revenue is not part of this model.
 */
module Dashboard {
  import opened Common
  import opened Analytics

  /** A dashboard line: a name and a seat total. */
  datatype Tally = Tally(name: string, total: int)

  datatype SeatWarning = SeatWarning(eventName: string, freeSeats: int)

  datatype Dashboard = Dashboard(
    totalUsers: nat,
    totalEvents: nat,
    totalBookings: nat,
    topEvents: seq<Tally>,
    topUsers: seq<Tally>,
    seatWarnings: seq<SeatWarning>)

  const TopEventsLimit: nat := 3
  const TopUsersLimit: nat := 5
  /** Events with at most this many free seats are listed as warnings. */
  const WarningThreshold := 5

  /** The two ways bookings are grouped. */
  datatype Grouping = ByEvent | ByUser

  function KeyOf(b: Booking, g: Grouping): Uuid {
    match g
    case ByEvent => b.eventId
    case ByUser => b.userId
  }

  /** The seats booked under key `id`: filter on the key, then sum. */
  function SumFor(bookings: seq<Booking>, g: Grouping, id: Uuid): int {
    if bookings == [] then 0
    else (if KeyOf(bookings[0], g) == id then bookings[0].seatsBooked else 0) + SumFor(bookings[1..], g, id)
  }

  /** No booking under the key: the sum is 0. */
  lemma {:induction false} SumForAbsent(bookings: seq<Booking>, g: Grouping, id: Uuid)
    requires forall i :: 0 <= i < |bookings| ==> KeyOf(bookings[i], g) != id
    ensures SumFor(bookings, g, id) == 0
  {
    if bookings != [] {
      SumForAbsent(bookings[1..], g, id);
    }
  }

  /** The filtered sum over a list with one more booking at the end. */
  lemma {:induction false} SumForSnoc(bookings: seq<Booking>, b: Booking, g: Grouping, id: Uuid)
    ensures SumFor(bookings + [b], g, id)
         == SumFor(bookings, g, id) + (if KeyOf(b, g) == id then b.seatsBooked else 0)
  {
    if bookings != [] {
      assert (bookings + [b])[1..] == bookings[1..] + [b];
      SumForSnoc(bookings[1..], b, g, id);
    }
  }

  /** `groupingBy(key, summingInt(seatsBooked))`, accumulated booking by booking. */
  function GroupSums(bookings: seq<Booking>, g: Grouping): (m: map<Uuid, int>)
    ensures forall k :: k in m <==> exists i :: 0 <= i < |bookings| && KeyOf(bookings[i], g) == k
  {
    if bookings == [] then map[]
    else
      var rest := GroupSums(bookings[..|bookings| - 1], g);
      var b := bookings[|bookings| - 1];
      var k := KeyOf(b, g);
      var m := rest[k := GetOrDefault(rest, k, 0) + b.seatsBooked];
      assert forall i :: 0 <= i < |bookings| - 1 ==> bookings[..|bookings| - 1][i] == bookings[i];
      m
  }

  /** The grouped map and the filtered sum agree for every key, with 0 for an absent key. */
  lemma {:induction false} GroupSumsAgree(bookings: seq<Booking>, g: Grouping, id: Uuid)
    ensures GetOrDefault(GroupSums(bookings, g), id, 0) == SumFor(bookings, g, id)
  {
    if bookings != [] {
      var init := bookings[..|bookings| - 1];
      var b := bookings[|bookings| - 1];
      assert init + [b] == bookings;
      GroupSumsAgree(init, g, id);
      SumForSnoc(init, b, g, id);
    }
  }

  // ---------------------------------------------------------------------------------------
  // Ranking

  predicate NonIncreasing(ts: seq<Tally>) {
    forall i, j :: 0 <= i < j < |ts| ==> ts[i].total >= ts[j].total
  }

  /** Prepending an entry at least as large as every other keeps the order. */
  lemma ConsNonIncreasing(x: Tally, ts: seq<Tally>)
    requires NonIncreasing(ts)
    requires forall y :: y in ts ==> y.total <= x.total
    ensures NonIncreasing([x] + ts)
  {
    var r := [x] + ts;
    forall i, j | 0 <= i < j < |r|
      ensures r[i].total >= r[j].total
    {
      assert r[j] == ts[j - 1];
      if i > 0 {
        assert r[i] == ts[i - 1];
      }
    }
  }

  /** The head of a non-increasing list is at least as large as every later entry. */
  lemma HeadIsLargest(ts: seq<Tally>)
    requires |ts| > 0 && NonIncreasing(ts)
    ensures forall y :: y in ts[1..] ==> y.total <= ts[0].total
  {
    forall y | y in ts[1..]
      ensures y.total <= ts[0].total
    {
      var j :| 0 <= j < |ts[1..]| && ts[1..][j] == y;
      assert ts[j + 1] == y;
    }
  }

  /** A bound on every entry of `ts` and on `t` is a bound on every entry of a list holding both. */
  lemma BoundCarries(r: seq<Tally>, ts: seq<Tally>, t: Tally, b: int)
    requires multiset(r) == multiset(ts) + multiset{t}
    requires forall y :: y in ts ==> y.total <= b
    requires t.total <= b
    ensures forall x :: x in r ==> x.total <= b
  {
    forall x | x in r
      ensures x.total <= b
    {
      assert x in multiset(r);
      if x != t {
        assert x in multiset(ts);
      }
    }
  }

  /** Insert `t` ahead of the first entry that is not larger, keeping the order. */
  function Insert(t: Tally, ts: seq<Tally>): (r: seq<Tally>)
    requires NonIncreasing(ts)
    ensures NonIncreasing(r)
    ensures multiset(r) == multiset(ts) + multiset{t}
    ensures |r| == |ts| + 1
  {
    if ts == [] then [t]
    else if ts[0].total <= t.total then
      ConsNonIncreasing(t, ts);
      [t] + ts
    else
      var rest := Insert(t, ts[1..]);
      assert ts == [ts[0]] + ts[1..];
      HeadIsLargest(ts);
      BoundCarries(rest, ts[1..], t, ts[0].total);
      ConsNonIncreasing(ts[0], rest);
      [ts[0]] + rest
  }

  /** `sorted` by descending total; equal totals keep their original order. */
  function SortDesc(ts: seq<Tally>): (r: seq<Tally>)
    ensures NonIncreasing(r)
    ensures multiset(r) == multiset(ts)
    ensures |r| == |ts|
  {
    if ts == [] then []
    else
      assert ts == [ts[0]] + ts[1..];
      Insert(ts[0], SortDesc(ts[1..]))
  }

  function Min(a: nat, b: nat): nat { if a < b then a else b }

  /** In a non-increasing list, every entry before `k` is at least as large as every entry from `k` on. */
  lemma PrefixDominatesSuffix(sorted: seq<Tally>, k: nat)
    requires NonIncreasing(sorted) && k <= |sorted|
    ensures forall i, t :: 0 <= i < k && t in multiset(sorted[k..]) ==> sorted[i].total >= t.total
  {
    forall i, t | 0 <= i < k && t in multiset(sorted[k..])
      ensures sorted[i].total >= t.total
    {
      var j :| 0 <= j < |sorted[k..]| && sorted[k..][j] == t;
      assert sorted[k + j] == t;
    }
  }

  /** The first `k` entries of a sorted permutation of `ts` are the `k` largest of `ts`. */
  lemma TakeLargest(ts: seq<Tally>, sorted: seq<Tally>, k: nat)
    requires multiset(sorted) == multiset(ts) && NonIncreasing(sorted) && k <= |sorted|
    ensures NonIncreasing(sorted[..k])
    ensures multiset(sorted[..k]) <= multiset(ts)
    ensures forall i, t :: 0 <= i < k && t in multiset(ts) - multiset(sorted[..k]) ==> sorted[..k][i].total >= t.total
  {
    assert sorted == sorted[..k] + sorted[k..];
    assert multiset(ts) - multiset(sorted[..k]) == multiset(sorted[k..]);
    PrefixDominatesSuffix(sorted, k);
  }

  /**
   * `sorted(...).limit(n)`: the n largest entries, largest first. Every entry left out is
   * no larger than any entry kept.
   */
  function Top(ts: seq<Tally>, n: nat): (r: seq<Tally>)
    ensures |r| == Min(n, |ts|)
    ensures NonIncreasing(r)
    ensures multiset(r) <= multiset(ts)
    ensures forall i, t :: 0 <= i < |r| && t in multiset(ts) - multiset(r) ==> r[i].total >= t.total
  {
    var sorted := SortDesc(ts);
    var k := Min(n, |ts|);
    TakeLargest(ts, sorted, k);
    sorted[..k]
  }

  // ---------------------------------------------------------------------------------------
  // The dashboard parts

  /** One line per event: its name and the seats booked for it. */
  function EventTallies(events: seq<Event>, bookings: seq<Booking>): (r: seq<Tally>)
    ensures |r| == |events|
    ensures forall i :: 0 <= i < |events| ==> r[i] == Tally(events[i].name, SumFor(bookings, ByEvent, events[i].id))
  {
    seq(|events|, i requires 0 <= i < |events| => Tally(events[i].name, SumFor(bookings, ByEvent, events[i].id)))
  }

  /** One line per user: the username and the seats from the per-user map, 0 when absent. */
  function UserTallies(users: seq<User>, bookings: seq<Booking>): (r: seq<Tally>)
    ensures |r| == |users|
    ensures forall i :: 0 <= i < |users| ==>
      r[i] == Tally(users[i].username, GetOrDefault(GroupSums(bookings, ByUser), users[i].id, 0))
  {
    var byUser := GroupSums(bookings, ByUser);
    seq(|users|, i requires 0 <= i < |users| => Tally(users[i].username, GetOrDefault(byUser, users[i].id, 0)))
  }

  /** `topEvents`: at most three events, largest booked total first. */
  function TopEvents(events: seq<Event>, bookings: seq<Booking>): (r: seq<Tally>)
    ensures |r| == Min(TopEventsLimit, |events|)
    ensures NonIncreasing(r)
    ensures forall t :: t in r ==>
      exists e :: e in events && t == Tally(e.name, SumFor(bookings, ByEvent, e.id))
    ensures multiset(r) <= multiset(EventTallies(events, bookings))
    ensures forall i, t :: 0 <= i < |r| && t in multiset(EventTallies(events, bookings)) - multiset(r) ==>
      r[i].total >= t.total
  {
    var tallies := EventTallies(events, bookings);
    var r := Top(tallies, TopEventsLimit);
    forall t | t in r
      ensures exists e :: e in events && t == Tally(e.name, SumFor(bookings, ByEvent, e.id))
    {
      assert t in multiset(r);
      assert t in multiset(tallies);
      var i :| 0 <= i < |tallies| && tallies[i] == t;
      assert events[i] in events;
    }
    r
  }

  /** `topUsers`: at most five users, largest booked total first; a user without bookings counts 0. */
  function TopUsers(users: seq<User>, bookings: seq<Booking>): (r: seq<Tally>)
    ensures |r| == Min(TopUsersLimit, |users|)
    ensures NonIncreasing(r)
    ensures forall t :: t in r ==>
      exists u :: u in users && t == Tally(u.username, SumFor(bookings, ByUser, u.id))
    ensures multiset(r) <= multiset(UserTallies(users, bookings))
    ensures forall i, t :: 0 <= i < |r| && t in multiset(UserTallies(users, bookings)) - multiset(r) ==>
      r[i].total >= t.total
  {
    var tallies := UserTallies(users, bookings);
    var r := Top(tallies, TopUsersLimit);
    forall t | t in r
      ensures exists u :: u in users && t == Tally(u.username, SumFor(bookings, ByUser, u.id))
    {
      assert t in multiset(r);
      assert t in multiset(tallies);
      var i :| 0 <= i < |tallies| && tallies[i] == t;
      GroupSumsAgree(bookings, ByUser, users[i].id);
      assert users[i] in users;
    }
    r
  }

  /** A user with no bookings is ranked with 0 seats. */
  lemma UnbookedUserCountsZero(users: seq<User>, bookings: seq<Booking>, i: nat)
    requires i < |users|
    requires forall j :: 0 <= j < |bookings| ==> bookings[j].userId != users[i].id
    ensures UserTallies(users, bookings)[i].total == 0
  {
    GroupSumsAgree(bookings, ByUser, users[i].id);
    SumForAbsent(bookings, ByUser, users[i].id);
  }

  /** The warning line of an event, with booked seats read from the per-event map. */
  function WarningRow(e: Event, seatsByEvent: map<Uuid, int>): SeatWarning {
    SeatWarning(e.name, e.totalSeats - GetOrDefault(seatsByEvent, e.id, 0))
  }

  /** The warning lines of the events at or under the threshold, in event order. */
  function Warnings(events: seq<Event>, seatsByEvent: map<Uuid, int>): (r: seq<SeatWarning>)
    ensures |r| <= |events|
    ensures forall w :: w in r ==> w.freeSeats <= WarningThreshold
    ensures forall w :: w in r ==> exists e :: e in events && w == WarningRow(e, seatsByEvent)
    ensures forall e :: e in events && WarningRow(e, seatsByEvent).freeSeats <= WarningThreshold ==>
      WarningRow(e, seatsByEvent) in r
  {
    if events == [] then []
    else
      var w := WarningRow(events[0], seatsByEvent);
      var rest := Warnings(events[1..], seatsByEvent);
      assert forall e :: e in events ==> e == events[0] || e in events[1..];
      if w.freeSeats <= WarningThreshold then [w] + rest else rest
  }

  /** A single event yields its warning line when it is at or under the threshold, else nothing. */
  lemma WarningsOfOne(e: Event, seatsByEvent: map<Uuid, int>)
    ensures Warnings([e], seatsByEvent)
         == if WarningRow(e, seatsByEvent).freeSeats <= WarningThreshold then [WarningRow(e, seatsByEvent)] else []
  {
    assert [e][1..] == [];
  }

  /** Filtering keeps the event order: the warnings of a concatenation are concatenated. */
  lemma {:induction false} WarningsKeepOrder(a: seq<Event>, b: seq<Event>, seatsByEvent: map<Uuid, int>)
    ensures Warnings(a + b, seatsByEvent) == Warnings(a, seatsByEvent) + Warnings(b, seatsByEvent)
  {
    if a == [] {
      assert a + b == b;
    } else {
      assert (a + b)[1..] == a[1..] + b;
      WarningsKeepOrder(a[1..], b, seatsByEvent);
    }
  }

  /** The warning line of an event, with booked seats summed directly over the bookings. */
  function FreeSeatsRow(e: Event, bookings: seq<Booking>): SeatWarning {
    SeatWarning(e.name, e.totalSeats - SumFor(bookings, ByEvent, e.id))
  }

  /** Reading the grouped map gives the same line as summing directly. */
  lemma WarningRowsAgree(events: seq<Event>, bookings: seq<Booking>)
    ensures forall e :: e in events ==> WarningRow(e, GroupSums(bookings, ByEvent)) == FreeSeatsRow(e, bookings)
  {
    forall e | e in events
      ensures WarningRow(e, GroupSums(bookings, ByEvent)) == FreeSeatsRow(e, bookings)
    {
      GroupSumsAgree(bookings, ByEvent, e.id);
    }
  }

  /** `seatWarnings`: free seats are capacity minus all seats booked for the event. */
  function SeatWarnings(events: seq<Event>, bookings: seq<Booking>): (r: seq<SeatWarning>)
    ensures |r| <= |events|
    ensures forall w :: w in r ==> w.freeSeats <= WarningThreshold
    ensures forall w :: w in r ==> exists e :: e in events && w == FreeSeatsRow(e, bookings)
    ensures forall e :: e in events && FreeSeatsRow(e, bookings).freeSeats <= WarningThreshold ==>
      FreeSeatsRow(e, bookings) in r
  {
    WarningRowsAgree(events, bookings);
    Warnings(events, GroupSums(bookings, ByEvent))
  }

  /**
   * `getDashboard` without the revenue total: the three counts, the busiest events and users
   * drawn from their tallies with nothing left out ranking higher, and exactly the events at
   * or under the warning threshold.
   */
  function GetDashboard(users: seq<User>, events: seq<Event>, bookings: seq<Booking>): (d: Dashboard)
    ensures d.totalUsers == |users| && d.totalEvents == |events| && d.totalBookings == |bookings|
    ensures |d.topEvents| == Min(TopEventsLimit, |events|) && NonIncreasing(d.topEvents)
    ensures multiset(d.topEvents) <= multiset(EventTallies(events, bookings))
    ensures forall t :: t in d.topEvents ==>
      exists e :: e in events && t == Tally(e.name, SumFor(bookings, ByEvent, e.id))
    ensures forall i, t :: 0 <= i < |d.topEvents|
                           && t in multiset(EventTallies(events, bookings)) - multiset(d.topEvents) ==>
      d.topEvents[i].total >= t.total
    ensures |d.topUsers| == Min(TopUsersLimit, |users|) && NonIncreasing(d.topUsers)
    ensures multiset(d.topUsers) <= multiset(UserTallies(users, bookings))
    ensures forall t :: t in d.topUsers ==>
      exists u :: u in users && t == Tally(u.username, SumFor(bookings, ByUser, u.id))
    ensures forall i, t :: 0 <= i < |d.topUsers|
                           && t in multiset(UserTallies(users, bookings)) - multiset(d.topUsers) ==>
      d.topUsers[i].total >= t.total
    ensures |d.seatWarnings| <= |events|
    ensures forall w :: w in d.seatWarnings ==> w.freeSeats <= WarningThreshold
    ensures forall w :: w in d.seatWarnings ==> exists e :: e in events && w == FreeSeatsRow(e, bookings)
    ensures forall e :: e in events && FreeSeatsRow(e, bookings).freeSeats <= WarningThreshold ==>
      FreeSeatsRow(e, bookings) in d.seatWarnings
  {
    Dashboard(|users|, |events|, |bookings|,
              TopEvents(events, bookings), TopUsers(users, bookings), SeatWarnings(events, bookings))
  }
}
