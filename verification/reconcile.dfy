/** `handleDelete` in the reservation list, joined to the server action it calls:
    the optimistic removal is applied first, then the delete request is started,
    and when it settles the view is reconciled with the server's answer. */
module Reconcile {
  import opened Wrappers
  import opened Data
  import opened Actions
  import opened Optimistic

  /** `ApplyOptimistic` is the call to `optimisticDelete`, which queues the
      filtered list for the next render; `SendDelete` starts the server call
      (it may start before React renders); `ShowSettled` is the list shown
      once the request has settled. */
  datatype ClientEvent =
    | ApplyOptimistic(shown: seq<Booking>)
    | SendDelete(bookingId: Id)
    | ShowSettled(shown: seq<Booking>)

  /** One run of `handleDelete`: what the client did, in order, the server
      action's outcome, and the view once the request settled. */
  datatype DeleteRun = DeleteRun(events: seq<ClientEvent>, server: Outcome, settled: ListView)

  function Elements(bookings: seq<Booking>): set<Booking>
  {
    set b | b in bookings
  }

  /** `handleDelete(bookingId)`. `refreshed` is the `bookings` prop the revalidated
      page delivers after a successful delete. */
  function HandleDelete(v: ListView, bookingId: Id, s: Store, session: Option<Session>, rejected: bool,
                        refreshed: seq<Booking>): (run: DeleteRun)
    ensures |run.events| == 3
    ensures run.events[0].ApplyOptimistic? && run.events[1] == SendDelete(bookingId) && run.events[2].ShowSettled?
    ensures run.events[0].shown == RemoveBooking(Shown(v), bookingId)
    ensures forall b :: b in run.events[0].shown ==> b.id != bookingId
    ensures run.server == DeleteReservation(s, session, bookingId, rejected)
    ensures run.events[2].shown == Shown(run.settled)
    ensures run.server.error.Some? ==> Shown(run.settled) == Baseline(v)
    ensures run.server.error.None? ==> Shown(run.settled) == refreshed
  {
    var speculative := OptimisticDelete(v, bookingId);
    var server := DeleteReservation(s, session, bookingId, rejected);
    var settled := Settle(speculative, server.error.None?, refreshed);
    DeleteRun([ApplyOptimistic(Shown(speculative)), SendDelete(bookingId), ShowSettled(Shown(settled))], server, settled)
  }

  /** When the list shows exactly the guest's bookings, the optimistic list is what
      the server ends up holding, both when the delete succeeds and when it is
      refused for a booking that is not the guest's (such a booking was never on
      the list). Only a store failure makes the guess wrong, and then the view
      reverts to the baseline. */
  lemma SpeculationMatchesServer(baseline: seq<Booking>, bookingId: Id, s: Store, g: Id, rejected: bool,
                                 refreshed: seq<Booking>)
    requires WellFormed(s)
    requires Elements(baseline) == GuestRecords(s, g)
    ensures var run := HandleDelete(Authoritative(baseline), bookingId, s, Some(Session(g)), rejected, refreshed);
      && (run.server.error.None? || run.server.error.value.kind == Forbidden ==>
            Elements(run.events[0].shown) == GuestRecords(run.server.store, g))
      && (run.server.error.Some? ==> Shown(run.settled) == baseline && run.server.store == s)
  {
    var run := HandleDelete(Authoritative(baseline), bookingId, s, Some(Session(g)), rejected, refreshed);
    var shown := run.events[0].shown;
    assert shown == RemoveBooking(baseline, bookingId);
    RemoveMembership(baseline, bookingId);
    var s' := run.server.store;
    if run.server.error.None? {
      forall b | b in shown
        ensures b in GuestRecords(s', g)
      {
        assert b in GuestRecords(s, g);
        var k :| k in s.bookings && s.bookings[k].guestId == g && s.bookings[k] == b;
        assert k in s'.bookings && s'.bookings[k] == b;
      }
      forall b | b in GuestRecords(s', g)
        ensures b in shown
      {
        var k :| k in s'.bookings && s'.bookings[k].guestId == g && s'.bookings[k] == b;
        assert s.bookings[k] == b && k != bookingId;
        assert b in GuestRecords(s, g);
      }
    } else if run.server.error.value.kind == Forbidden {
      assert bookingId !in OwnedIds(s, g);
      forall b | b in baseline
        ensures b.id != bookingId
      {
        assert b in GuestRecords(s, g);
        var k :| k in s.bookings && s.bookings[k].guestId == g && s.bookings[k] == b;
        assert k in OwnedIds(s, g);
      }
      RemoveAbsent(baseline, bookingId);
    }
  }

  /** Scenario: deleting booking 42 from the list [1, 42, 7] shows [1, 7] at once;
      when the server call fails the list shows [1, 42, 7] again. */
  lemma DeleteFromThreeThenRevert(b1: Booking, b42: Booking, b7: Booking, s: Store, session: Option<Session>,
                                  refreshed: seq<Booking>)
    requires b1.id == 1 && b42.id == 42 && b7.id == 7
    ensures var run := HandleDelete(Authoritative([b1, b42, b7]), 42, s, session, true, refreshed);
      && run.events[0] == ApplyOptimistic([b1, b7])
      && run.server.error.Some?
      && run.events[2] == ShowSettled([b1, b42, b7])
  {
    assert RemoveBooking([b7], 42) == [b7] by { RemoveHead(b7, [], 42); }
    assert RemoveBooking([b42, b7], 42) == [b7] by { RemoveHead(b42, [b7], 42); }
    assert RemoveBooking([b1, b42, b7], 42) == [b1, b7] by { RemoveHead(b1, [b42, b7], 42); }
  }
}
