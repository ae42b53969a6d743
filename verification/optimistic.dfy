/** The reservation list's optimistic delete: the reducer given to
    `useOptimistic`, and the list view as a two-state machine. While deletes are
    in flight the view is Speculative and shows the baseline with the pending
    ids filtered out; once they settle it is Authoritative again and shows the
    list the server provided. */
module Optimistic {
  import opened Data

  /** `curBookings.filter(booking => booking.id !== bookingId)`. */
  function RemoveBooking(bookings: seq<Booking>, bookingId: Id): (r: seq<Booking>)
    ensures |r| <= |bookings|
  {
    if |bookings| == 0 then []
    else (if bookings[0].id == bookingId then [] else [bookings[0]]) + RemoveBooking(bookings[1..], bookingId)
  }

  /** A booking survives the filter exactly when it was in the list and has another id. */
  lemma {:induction false} RemoveMembership(bookings: seq<Booking>, bookingId: Id)
    ensures forall b :: b in RemoveBooking(bookings, bookingId) <==> b in bookings && b.id != bookingId
  {
    if |bookings| > 0 {
      RemoveMembership(bookings[1..], bookingId);
      assert bookings == [bookings[0]] + bookings[1..];
    }
  }

  /** `a` can be obtained from `b` by dropping elements, keeping the order. */
  predicate IsSubsequence<T(==)>(a: seq<T>, b: seq<T>)
    decreases |b|
  {
    if |a| == 0 then true
    else if |b| == 0 then false
    else if a[0] == b[0] then IsSubsequence(a[1..], b[1..])
    else IsSubsequence(a, b[1..])
  }

  /** Number of bookings in the list with the given id. */
  function CountId(bookings: seq<Booking>, bookingId: Id): nat
  {
    if |bookings| == 0 then 0
    else (if bookings[0].id == bookingId then 1 else 0) + CountId(bookings[1..], bookingId)
  }

  /** The bookings that survive keep their relative order. */
  lemma {:induction false} RemoveKeepsOrder(bookings: seq<Booking>, bookingId: Id)
    ensures IsSubsequence(RemoveBooking(bookings, bookingId), bookings)
  {
    if |bookings| > 0 {
      var r := RemoveBooking(bookings, bookingId);
      var rest := RemoveBooking(bookings[1..], bookingId);
      RemoveKeepsOrder(bookings[1..], bookingId);
      if bookings[0].id == bookingId {
        assert r == rest;
        if |r| > 0 {
          RemoveMembership(bookings[1..], bookingId);
          assert r[0] in rest;
          assert r[0] != bookings[0];
        }
      } else {
        assert r == [bookings[0]] + rest;
        assert r[1..] == rest;
      }
    }
  }

  /** Exactly the bookings with the target id are dropped. */
  lemma {:induction false} RemoveLength(bookings: seq<Booking>, bookingId: Id)
    ensures |RemoveBooking(bookings, bookingId)| == |bookings| - CountId(bookings, bookingId)
  {
    if |bookings| > 0 {
      RemoveLength(bookings[1..], bookingId);
    }
  }

  /** Removing an id that is not in the list returns the list unchanged. */
  lemma {:induction false} RemoveAbsent(bookings: seq<Booking>, bookingId: Id)
    requires forall b :: b in bookings ==> b.id != bookingId
    ensures RemoveBooking(bookings, bookingId) == bookings
  {
    if |bookings| > 0 {
      assert bookings[0] in bookings;
      assert forall b :: b in bookings[1..] ==> b in bookings;
      RemoveAbsent(bookings[1..], bookingId);
      assert bookings == [bookings[0]] + bookings[1..];
    }
  }

  /** Removing the same id twice is removing it once. */
  lemma RemoveIdempotent(bookings: seq<Booking>, bookingId: Id)
    ensures RemoveBooking(RemoveBooking(bookings, bookingId), bookingId) == RemoveBooking(bookings, bookingId)
  {
    RemoveMembership(bookings, bookingId);
    RemoveAbsent(RemoveBooking(bookings, bookingId), bookingId);
  }

  /** Removals of two ids commute. */
  lemma {:induction false} RemoveCommutes(bookings: seq<Booking>, x: Id, y: Id)
    ensures RemoveBooking(RemoveBooking(bookings, x), y) == RemoveBooking(RemoveBooking(bookings, y), x)
  {
    if |bookings| > 0 {
      var b := bookings[0];
      var tail := bookings[1..];
      RemoveCommutes(tail, x, y);
      var xs := RemoveBooking(tail, x);
      var ys := RemoveBooking(tail, y);
      RemoveHead(b, tail, x);
      RemoveHead(b, tail, y);
      assert bookings == [b] + tail;
      assert [] + xs == xs && [] + ys == ys;
      if b.id != x {
        RemoveHead(b, xs, y);
      }
      if b.id != y {
        RemoveHead(b, ys, x);
      }
    }
  }

  /** One step of the filter on a list written as head and tail. */
  lemma RemoveHead(b: Booking, tail: seq<Booking>, bookingId: Id)
    ensures RemoveBooking([b] + tail, bookingId)
         == (if b.id == bookingId then [] else [b]) + RemoveBooking(tail, bookingId)
  {
  }

  /** The pending ids applied to the baseline in the order they were requested. */
  function RemoveAll(bookings: seq<Booking>, ids: seq<Id>): seq<Booking>
    decreases |ids|
  {
    if |ids| == 0 then bookings else RemoveAll(RemoveBooking(bookings, ids[0]), ids[1..])
  }

  lemma {:induction false} RemoveAllSnoc(bookings: seq<Booking>, ids: seq<Id>, id: Id)
    ensures RemoveAll(bookings, ids + [id]) == RemoveBooking(RemoveAll(bookings, ids), id)
    decreases |ids|
  {
    if |ids| > 0 {
      assert (ids + [id])[1..] == ids[1..] + [id];
      RemoveAllSnoc(RemoveBooking(bookings, ids[0]), ids[1..], id);
    }
  }

  datatype ListView =
    | Authoritative(bookings: seq<Booking>)
    | Speculative(baseline: seq<Booking>, pending: seq<Id>)

  /** The last server-provided list (the `bookings` prop). */
  function Baseline(v: ListView): seq<Booking>
  {
    match v
    case Authoritative(b) => b
    case Speculative(b, _) => b
  }

  function Pending(v: ListView): seq<Id>
  {
    match v
    case Authoritative(_) => []
    case Speculative(_, p) => p
  }

  /** The list rendered (`optimisticBookings`). */
  function Shown(v: ListView): seq<Booking>
  {
    RemoveAll(Baseline(v), Pending(v))
  }

  /** `optimisticDelete(bookingId)`: the list to render loses the booking at once;
      the baseline is kept for the moment the request settles. */
  function OptimisticDelete(v: ListView, bookingId: Id): (v': ListView)
    ensures v'.Speculative?
    ensures Baseline(v') == Baseline(v)
    ensures Shown(v') == RemoveBooking(Shown(v), bookingId)
    ensures forall b :: b in Shown(v') ==> b.id != bookingId
  {
    RemoveAllSnoc(Baseline(v), Pending(v), bookingId);
    RemoveMembership(Shown(v), bookingId);
    Speculative(Baseline(v), Pending(v) + [bookingId])
  }

  /** The request has settled: the rendered list is the `bookings` prop again, the
      refreshed server list after a success and the unchanged baseline after a
      failure. */
  function Settle(v: ListView, succeeded: bool, refreshed: seq<Booking>): (v': ListView)
    ensures v'.Authoritative? && Pending(v') == []
    ensures !succeeded ==> Shown(v') == Baseline(v)
    ensures succeeded ==> Shown(v') == refreshed
  {
    Authoritative(if succeeded then refreshed else Baseline(v))
  }
}
