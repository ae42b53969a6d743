/** Properties that relate several calls of the actions, or hold of all of them. */
module ActionProperties {
  import opened Wrappers
  import opened Text
  import NationalId
  import opened Data
  import opened Actions

  function Phase(st: Step): nat
  {
    match st
    case ResolveSession => 0
    case QueryGuestBookings(_) => 1
    case CallStore(_) => 2
  }

  /** The template every action follows: the session is resolved first, each
      collaborator is asked at most once and in the order session, ownership
      query, store; an action that succeeded ended with a store call, and one
      that failed declared nothing stale. */
  predicate FollowsPipeline(o: Outcome)
  {
    && |o.trace| >= 1
    && o.trace[0] == ResolveSession
    && (forall i, j :: 0 <= i < j < |o.trace| ==> Phase(o.trace[i]) < Phase(o.trace[j]))
    && (o.error.None? ==> o.trace[|o.trace| - 1].CallStore?)
    && (o.error.Some? ==> o.invalidated == [] && o.redirect.None?)
  }

  predicate CallsStore(o: Outcome)
  {
    exists i :: 0 <= i < |o.trace| && o.trace[i].CallStore?
  }

  lemma CreateFollowsPipeline(listPath: string, s: Store, session: Option<Session>, data: ReservationData,
                              form: BookingForm, nextId: Id, rejected: bool)
    ensures FollowsPipeline(CreateRevalidating(listPath, s, session, data, form, nextId, rejected))
  {
  }

  lemma UpdateGuestProfileFollowsPipeline(s: Store, session: Option<Session>, profile: ProfileForm, rejected: bool)
    ensures FollowsPipeline(UpdateGuestProfile(s, session, profile, rejected))
  {
  }

  lemma DeleteFollowsPipeline(s: Store, session: Option<Session>, bookingId: Id, rejected: bool)
    ensures FollowsPipeline(DeleteReservation(s, session, bookingId, rejected))
  {
  }

  lemma UpdateReservationFollowsPipeline(s: Store, session: Option<Session>, edit: EditForm, rejected: bool)
    ensures FollowsPipeline(UpdateReservation(s, session, edit, rejected))
  {
  }

  /** Without a session no action reaches the store; edit and delete reach it only
      for a booking of the session's guest, and the profile update only with a
      valid national id. */
  lemma StoreCalledOnlyAfterGuards(s: Store, session: Option<Session>, data: ReservationData, form: BookingForm,
                                   nextId: Id, profile: ProfileForm, edit: EditForm, bookingId: Id, rejected: bool)
    ensures CallsStore(CreateReservation(s, session, data, form, nextId, rejected)) ==> session.Some?
    ensures CallsStore(UpdateGuestProfile(s, session, profile, rejected)) ==>
      session.Some? && NationalId.Valid(profile.nationalID)
    ensures CallsStore(DeleteReservation(s, session, bookingId, rejected)) ==>
      session.Some? && bookingId in OwnedIds(s, session.value.guestId)
    ensures CallsStore(UpdateReservation(s, session, edit, rejected)) ==>
      session.Some? && edit.reservationId in OwnedIds(s, session.value.guestId)
  {
  }

  /** No action changes a booking that belongs to another guest. */
  lemma OtherGuestsBookingsUntouched(s: Store, g: Id, data: ReservationData, form: BookingForm, nextId: Id,
                                     profile: ProfileForm, edit: EditForm, bookingId: Id, rejected: bool, k: Id)
    requires k in s.bookings && s.bookings[k].guestId != g
    ensures var o := CreateReservation(s, Some(Session(g)), data, form, nextId, rejected);
      k in o.store.bookings && o.store.bookings[k] == s.bookings[k]
    ensures var o := UpdateGuestProfile(s, Some(Session(g)), profile, rejected);
      k in o.store.bookings && o.store.bookings[k] == s.bookings[k]
    ensures var o := DeleteReservation(s, Some(Session(g)), bookingId, rejected);
      k in o.store.bookings && o.store.bookings[k] == s.bookings[k]
    ensures var o := UpdateReservation(s, Some(Session(g)), edit, rejected);
      k in o.store.bookings && o.store.bookings[k] == s.bookings[k]
  {
  }

  /** Every action keeps each row stored under its own id. */
  lemma ActionsPreserveWellFormed(s: Store, session: Option<Session>, data: ReservationData, form: BookingForm,
                                  nextId: Id, profile: ProfileForm, edit: EditForm, bookingId: Id, rejected: bool)
    requires WellFormed(s)
    ensures WellFormed(CreateReservation(s, session, data, form, nextId, rejected).store)
    ensures WellFormed(UpdateGuestProfile(s, session, profile, rejected).store)
    ensures WellFormed(DeleteReservation(s, session, bookingId, rejected).store)
    ensures WellFormed(UpdateReservation(s, session, edit, rejected).store)
  {
  }

  /** What the client claims for the server-set fields makes no difference.
      This holds by construction: the model encodes the object spread, whose
      later keys override these claims, by `NewBooking` never reading
      `data.claims`. The lemma records that encoding; it proves nothing deeper. */
  lemma CreateIgnoresClientClaims(s: Store, session: Option<Session>, data: ReservationData, claims: ClientClaims,
                                  form: BookingForm, nextId: Id, rejected: bool)
    ensures CreateReservation(s, session, data, form, nextId, rejected)
         == CreateReservation(s, session, data.(claims := claims), form, nextId, rejected)
  {
  }

  /** Deleting the booking just created restores the store it was created in. */
  lemma CreateThenDeleteRestores(s: Store, g: Id, data: ReservationData, form: BookingForm, nextId: Id)
    requires InsertedId(data, nextId) !in s.bookings
    ensures var created := CreateReservation(s, Some(Session(g)), data, form, nextId, false);
      && created.error.None?
      && var deleted := DeleteReservation(created.store, Some(Session(g)), InsertedId(data, nextId), false);
      && deleted.error.None?
      && deleted.store == s
  {
  }

  /** A booking can be deleted once: a second delete is refused and changes nothing. */
  lemma SecondDeleteForbidden(s: Store, session: Session, bookingId: Id, rejected: bool)
    requires DeleteReservation(s, Some(session), bookingId, rejected).error.None?
    ensures var s' := DeleteReservation(s, Some(session), bookingId, rejected).store;
      var again := DeleteReservation(s', Some(session), bookingId, rejected);
      again.error == Some(ActionError(Forbidden, NotAllowedToDelete)) && again.store == s'
  {
  }

  /** Submitting the same edit twice leaves the store as one submission does. */
  lemma EditIdempotent(s: Store, session: Session, edit: EditForm)
    requires UpdateReservation(s, Some(session), edit, false).error.None?
    ensures var once := UpdateReservation(s, Some(session), edit, false);
      var twice := UpdateReservation(once.store, Some(session), edit, false);
      twice.error.None? && twice.store == once.store
  {
  }

  /** Submitting the same profile form twice leaves the store as one submission does. */
  lemma ProfileUpdateIdempotent(s: Store, session: Session, profile: ProfileForm)
    requires UpdateGuestProfile(s, Some(session), profile, false).error.None?
    ensures var once := UpdateGuestProfile(s, Some(session), profile, false);
      var twice := UpdateGuestProfile(once.store, Some(session), profile, false);
      twice.error.None? && twice.store == once.store
  {
  }

  /** With the reservations path spelled `/account/reservations`, every action
      that changes the guest's bookings declares the reservations list stale. */
  lemma BookingChangesRevalidateList(s: Store, session: Option<Session>, data: ReservationData, form: BookingForm,
                                     nextId: Id, edit: EditForm, bookingId: Id, rejected: bool)
    ensures var o := CreateReservationIntended(s, session, data, form, nextId, rejected);
      o.error.None? ==> ReservationsPath in o.invalidated
    ensures var o := DeleteReservation(s, session, bookingId, rejected);
      o.error.None? ==> ReservationsPath in o.invalidated
    ensures var o := UpdateReservation(s, session, edit, rejected);
      o.error.None? ==> ReservationsPath in o.invalidated
  {
  }

  /** As written, a successful create never declares `/account/reservations` stale. */
  lemma CreateAsWrittenMissesReservationsList()
    ensures var data := ReservationData(7, "2024-06-01", "2024-06-04", 3, 450, None,
                                        ClientClaims(None, None, None, None, None, None, None, None));
      var o := CreateReservation(Store(map[], map[]), Some(Session(1)), data, BookingForm(2, ""), 1, false);
      && o.error.None?
      && o.invalidated == ["account/reservations", "/cabins/7"]
      && ReservationsPath !in o.invalidated
  {
    assert CabinPath(7) == "/cabins/7";
  }

  /** A client claiming `status: "confirmed"` still gets an unconfirmed, unpaid booking. */
  lemma ClaimedStatusOverridden(s: Store, g: Id, data: ReservationData, form: BookingForm, nextId: Id)
    requires data.claims.status == Some("confirmed") && data.claims.isPaid == Some(true)
    requires InsertedId(data, nextId) !in s.bookings
    ensures var o := CreateReservation(s, Some(Session(g)), data, form, nextId, false);
      && o.error.None?
      && o.store.bookings[InsertedId(data, nextId)].status == "unconfirmed"
      && !o.store.bookings[InsertedId(data, nextId)].isPaid
  {
  }

  /** Guest 1 deleting a booking of guest 2 is refused. */
  lemma DeleteOthersBookingForbidden(s: Store, b: Booking, rejected: bool)
    requires b.guestId == 2 && s.bookings == map[b.id := b]
    ensures DeleteReservation(s, Some(Session(1)), b.id, rejected).error
         == Some(ActionError(Forbidden, NotAllowedToDelete))
  {
  }

  /** `"French%🇫🇷"` is stored as nationality `"French"` and flag `"🇫🇷"`. */
  lemma NationalityAndFlagSplit(nationalID: string)
    ensures var p := ProfilePatch(ProfileForm(nationalID, "French%\U{1F1EB}\U{1F1F7}"));
      p.nationality == "French" && p.countryFlag == Some("\U{1F1EB}\U{1F1F7}")
  {
    SplitJoin(["French", "\U{1F1EB}\U{1F1F7}"], '%');
    assert Join(["French", "\U{1F1EB}\U{1F1F7}"], '%') == "French%\U{1F1EB}\U{1F1F7}";
  }
}
