/** The four server actions: create, edit and delete a reservation, and update the
    guest profile. Each is a pure function of the store, the (optional) session,
    the submitted form, and the remote store's answer. Each follows one template:
    resolve the session, check ownership (edit and delete), call the store, and
    only after a store success declare stale paths and redirect. */
module Actions {
  import opened Wrappers
  import opened Text
  import opened Numerals
  import NationalId
  import opened Data

  const MaxObservations: nat := 1000

  // Messages of the errors the actions throw.
  const LogInToCreate := "You must be logged in order to create reservation"
  const LogInToUpdateProfile := "You must be logged in order to update profile"
  const LogInToDelete := "You must be logged in order to delete a reservation"
  const LogInToEdit := "You must be logged in order to edit reservation"
  const NotAllowedToDelete := "You are not allowed to delete this reservation"
  const NotAllowedToEdit := "You are not allowed to edit this reservation"
  const InvalidNationalId := "Please provide a valid national ID"
  const CouldNotCreate := "Booking could not be created"
  const CouldNotEdit := "Booking could not be edited"
  const CouldNotDelete := "Booking could not be deleted"
  const CouldNotUpdateGuest := "Guest could not be updated"

  // Paths the actions revalidate or redirect to.
  const ReservationsPath := "/account/reservations"
  /** The reservations path as `createReservation` spells it, without the leading slash. */
  const ReservationsPathInCreate := "account/reservations"
  const ProfilePath := "/account/profile"
  const ThankYouPath := "/cabins/thankyou"

  function CabinPath(cabinId: Id): string
  {
    "/cabins/" + NumberToString(cabinId)
  }

  function EditPath(id: Id): string
  {
    ReservationsPath + "/edit/" + NumberToString(id)
  }

  datatype ErrorKind = Unauthenticated | Forbidden | Validation | StoreFailure

  datatype ActionError = ActionError(kind: ErrorKind, message: string)

  datatype StoreCall =
    | InsertIntoBookings(id: Id)
    | UpdateBookings(id: Id)
    | DeleteFromBookings(id: Id)
    | UpdateGuests(guestId: Id)

  /** What an action asks of its collaborators, in order. */
  datatype Step =
    | ResolveSession
    | QueryGuestBookings(guestId: Id)
    | CallStore(call: StoreCall)

  /** Result of one action: the store afterwards, the error thrown (if any), the
      steps taken, the paths revalidated and the redirect target. */
  datatype Outcome = Outcome(
    store: Store,
    error: Option<ActionError>,
    trace: seq<Step>,
    invalidated: seq<string>,
    redirect: Option<string>)

  function Rejected(s: Store, kind: ErrorKind, message: string, trace: seq<Step>): Outcome
  {
    Outcome(s, Some(ActionError(kind, message)), trace, [], None)
  }

  /** A failed action leaves the store as it was and declares nothing stale. */
  predicate LeftUntouched(o: Outcome, s: Store)
  {
    o.store == s && o.invalidated == [] && o.redirect.None?
  }

  /** Fields of `reservationData` that the server overwrites; a client may send
      any of them. */
  datatype ClientClaims = ClientClaims(
    guestId: Option<Id>,
    numGuests: Option<int>,
    observations: Option<string>,
    extrasPrice: Option<int>,
    totalPrice: Option<int>,
    status: Option<string>,
    isPaid: Option<bool>,
    hasBreakfast: Option<bool>)

  /** The `reservationData` object bound by the booking form. An `id` key, if
      present, survives the spread into the new row. */
  datatype ReservationData = ReservationData(
    cabinId: Id,
    startDate: string,
    endDate: string,
    numNights: int,
    cabinPrice: int,
    id: Option<Id>,
    claims: ClientClaims)

  datatype BookingForm = BookingForm(numGuests: int, observations: string)

  datatype EditForm = EditForm(reservationId: Id, numGuests: int, observations: string)

  datatype ProfileForm = ProfileForm(nationalID: string, nationality: string)

  /** The id of the inserted row: the one spread from `reservationData`, else the
      one the store assigns. */
  function InsertedId(data: ReservationData, nextId: Id): Id
  {
    if data.id.Some? then data.id.value else nextId
  }

  /** The columns the server sets on a new booking whatever the client sent. */
  predicate ServerFieldsForced(b: Booking, guestId: Id, data: ReservationData)
  {
    && b.guestId == guestId
    && b.status == Unconfirmed
    && !b.isPaid
    && !b.hasBreakfast
    && b.extrasPrice == 0
    && b.totalPrice == data.cabinPrice
  }

  /** The columns copied from `reservationData` unchanged. */
  predicate DataPassedThrough(b: Booking, data: ReservationData)
  {
    && b.cabinId == data.cabinId
    && b.startDate == data.startDate
    && b.endDate == data.endDate
    && b.numNights == data.numNights
    && b.cabinPrice == data.cabinPrice
  }

  /** `stored` is `submitted` cut to at most 1000 characters. */
  predicate Truncated(stored: string, submitted: string)
  {
    && stored <= submitted
    && |stored| == if |submitted| <= MaxObservations then |submitted| else MaxObservations
  }

  /** Two bookings agree on every column except `numGuests` and `observations`. */
  predicate SameExceptEditable(a: Booking, b: Booking)
  {
    a.(numGuests := b.numGuests, observations := b.observations) == b
  }

  function NewBooking(data: ReservationData, form: BookingForm, guestId: Id, id: Id): Booking
  {
    Booking(
      id := id,
      guestId := guestId,
      cabinId := data.cabinId,
      startDate := data.startDate,
      endDate := data.endDate,
      numNights := data.numNights,
      numGuests := form.numGuests,
      cabinPrice := data.cabinPrice,
      extrasPrice := 0,
      totalPrice := data.cabinPrice,
      status := Unconfirmed,
      isPaid := false,
      hasBreakfast := false,
      observations := Slice(form.observations, MaxObservations))
  }

  /** `createReservation`, parameterised by the spelling of the reservations
      path it revalidates first. */
  function CreateRevalidating(listPath: string, s: Store, session: Option<Session>, data: ReservationData,
                              form: BookingForm, nextId: Id, rejected: bool): (o: Outcome)
    ensures session.None? ==>
      && o.error == Some(ActionError(Unauthenticated, LogInToCreate))
      && LeftUntouched(o, s) && o.trace == [ResolveSession]
    ensures o.error.None? <==> session.Some? && !rejected && InsertedId(data, nextId) !in s.bookings
    ensures session.Some? && o.error.Some? ==>
      && o.error == Some(ActionError(StoreFailure, CouldNotCreate))
      && LeftUntouched(o, s)
      && o.trace == [ResolveSession, CallStore(InsertIntoBookings(InsertedId(data, nextId)))]
    ensures o.error.None? ==>
      var id := InsertedId(data, nextId);
      && o.store.guests == s.guests
      && o.store.bookings.Keys == s.bookings.Keys + {id}
      && (forall k :: k in s.bookings ==> o.store.bookings[k] == s.bookings[k])
      && o.store.bookings[id].id == id
      && ServerFieldsForced(o.store.bookings[id], session.value.guestId, data)
      && DataPassedThrough(o.store.bookings[id], data)
      && o.store.bookings[id].numGuests == form.numGuests
      && Truncated(o.store.bookings[id].observations, form.observations)
      && o.trace == [ResolveSession, CallStore(InsertIntoBookings(id))]
      && o.invalidated == [listPath, CabinPath(data.cabinId)]
      && o.redirect == Some(ThankYouPath)
  {
    if session.None? then Rejected(s, Unauthenticated, LogInToCreate, [ResolveSession])
    else
      var id := InsertedId(data, nextId);
      var trace := [ResolveSession, CallStore(InsertIntoBookings(id))];
      match InsertBooking(s, NewBooking(data, form, session.value.guestId, id), rejected)
      case None => Rejected(s, StoreFailure, CouldNotCreate, trace)
      case Some(s') => Outcome(s', None, trace, [listPath, CabinPath(data.cabinId)], Some(ThankYouPath))
  }

  /** `createReservation` as written: it revalidates `"account/reservations"`. */
  function CreateReservation(s: Store, session: Option<Session>, data: ReservationData,
                             form: BookingForm, nextId: Id, rejected: bool): (o: Outcome)
    ensures o.error.None? ==> o.invalidated == [ReservationsPathInCreate, CabinPath(data.cabinId)]
    ensures ReservationsPath !in o.invalidated
  {
    var o := CreateRevalidating(ReservationsPathInCreate, s, session, data, form, nextId, rejected);
    assert o.error.None? ==> CabinPath(data.cabinId)[1] != ReservationsPath[1];
    o
  }

  /** `createReservation` with the reservations path spelled as the other actions spell it. */
  function CreateReservationIntended(s: Store, session: Option<Session>, data: ReservationData,
                                     form: BookingForm, nextId: Id, rejected: bool): (o: Outcome)
    ensures o.error.None? ==> o.invalidated == [ReservationsPath, CabinPath(data.cabinId)]
  {
    CreateRevalidating(ReservationsPath, s, session, data, form, nextId, rejected)
  }

  /** The nationality and country flag destructured from `nationality.split("%")`,
      and the national id, as written to the guest row. */
  function ProfilePatch(form: ProfileForm): (p: GuestPatch)
    ensures p.nationalID == form.nationalID
    ensures p.nationality <= form.nationality && '%' !in p.nationality
    ensures |p.nationality| < |form.nationality| ==> form.nationality[|p.nationality|] == '%'
    ensures p.countryFlag.Some? <==> '%' in form.nationality
    ensures p.countryFlag.Some? ==>
      var rest := form.nationality[|p.nationality| + 1..];
      && p.countryFlag.value <= rest
      && '%' !in p.countryFlag.value
      && (|p.countryFlag.value| < |rest| ==> rest[|p.countryFlag.value|] == '%')
  {
    var pieces := Split(form.nationality, '%');
    GuestPatch(pieces[0], if |pieces| >= 2 then Some(pieces[1]) else None, form.nationalID)
  }

  /** `updateGuestProfile`. */
  function UpdateGuestProfile(s: Store, session: Option<Session>, form: ProfileForm, rejected: bool): (o: Outcome)
    ensures session.None? ==>
      && o.error == Some(ActionError(Unauthenticated, LogInToUpdateProfile))
      && LeftUntouched(o, s) && o.trace == [ResolveSession]
    ensures session.Some? && !NationalId.Valid(form.nationalID) ==>
      && o.error == Some(ActionError(Validation, InvalidNationalId))
      && LeftUntouched(o, s) && o.trace == [ResolveSession]
    ensures o.error.None? <==> session.Some? && NationalId.Valid(form.nationalID) && !rejected
    ensures session.Some? && NationalId.Valid(form.nationalID) && rejected ==>
      && o.error == Some(ActionError(StoreFailure, CouldNotUpdateGuest))
      && LeftUntouched(o, s)
      && o.trace == [ResolveSession, CallStore(UpdateGuests(session.value.guestId))]
    ensures o.error.None? ==>
      var g := session.value.guestId;
      var p := ProfilePatch(form);
      && o.store.bookings == s.bookings
      && o.store.guests.Keys == s.guests.Keys
      && (forall k :: k in s.guests && k != g ==> o.store.guests[k] == s.guests[k])
      && (g in s.guests ==>
            && o.store.guests[g].nationality == p.nationality
            && o.store.guests[g].countryFlag == (if p.countryFlag.Some? then p.countryFlag.value else s.guests[g].countryFlag)
            && o.store.guests[g].nationalID == form.nationalID
            && o.store.guests[g] == s.guests[g].(nationality := o.store.guests[g].nationality,
                                                 countryFlag := o.store.guests[g].countryFlag,
                                                 nationalID := form.nationalID))
      && o.trace == [ResolveSession, CallStore(UpdateGuests(g))]
      && o.invalidated == [ProfilePath]
      && o.redirect.None?
  {
    if session.None? then Rejected(s, Unauthenticated, LogInToUpdateProfile, [ResolveSession])
    else
      var p := ProfilePatch(form);
      if !NationalId.Valid(form.nationalID) then Rejected(s, Validation, InvalidNationalId, [ResolveSession])
      else
        var g := session.value.guestId;
        var trace := [ResolveSession, CallStore(UpdateGuests(g))];
        match UpdateGuestRow(s, g, p, rejected)
        case None => Rejected(s, StoreFailure, CouldNotUpdateGuest, trace)
        case Some(s') => Outcome(s', None, trace, [ProfilePath], None)
  }

  /** `deleteReservation`. */
  function DeleteReservation(s: Store, session: Option<Session>, bookingId: Id, rejected: bool): (o: Outcome)
    ensures session.None? ==>
      && o.error == Some(ActionError(Unauthenticated, LogInToDelete))
      && LeftUntouched(o, s) && o.trace == [ResolveSession]
    ensures session.Some? && bookingId !in OwnedIds(s, session.value.guestId) ==>
      && o.error == Some(ActionError(Forbidden, NotAllowedToDelete))
      && LeftUntouched(o, s)
      && o.trace == [ResolveSession, QueryGuestBookings(session.value.guestId)]
    ensures o.error.None? <==> session.Some? && bookingId in OwnedIds(s, session.value.guestId) && !rejected
    ensures session.Some? && bookingId in OwnedIds(s, session.value.guestId) && rejected ==>
      && o.error == Some(ActionError(StoreFailure, CouldNotDelete))
      && LeftUntouched(o, s)
      && o.trace == [ResolveSession, QueryGuestBookings(session.value.guestId), CallStore(DeleteFromBookings(bookingId))]
    ensures o.error.None? ==>
      && o.store.guests == s.guests
      && o.store.bookings.Keys == s.bookings.Keys - {bookingId}
      && (forall k :: k in o.store.bookings ==> o.store.bookings[k] == s.bookings[k])
      && o.trace == [ResolveSession, QueryGuestBookings(session.value.guestId), CallStore(DeleteFromBookings(bookingId))]
      && o.invalidated == [ReservationsPath, CabinPath(s.bookings[bookingId].cabinId)]
      && o.redirect.None?
  {
    if session.None? then Rejected(s, Unauthenticated, LogInToDelete, [ResolveSession])
    else
      var g := session.value.guestId;
      if bookingId !in OwnedIds(s, g) then
        Rejected(s, Forbidden, NotAllowedToDelete, [ResolveSession, QueryGuestBookings(g)])
      else
        var trace := [ResolveSession, QueryGuestBookings(g), CallStore(DeleteFromBookings(bookingId))];
        match DeleteBookingRow(s, bookingId, rejected)
        case None => Rejected(s, StoreFailure, CouldNotDelete, trace)
        case Some((s', deleted)) => Outcome(s', None, trace, [ReservationsPath, CabinPath(deleted.cabinId)], None)
  }

  /** `updateReservation`. */
  function UpdateReservation(s: Store, session: Option<Session>, form: EditForm, rejected: bool): (o: Outcome)
    ensures session.None? ==>
      && o.error == Some(ActionError(Unauthenticated, LogInToEdit))
      && LeftUntouched(o, s) && o.trace == [ResolveSession]
    ensures session.Some? && form.reservationId !in OwnedIds(s, session.value.guestId) ==>
      && o.error == Some(ActionError(Forbidden, NotAllowedToEdit))
      && LeftUntouched(o, s)
      && o.trace == [ResolveSession, QueryGuestBookings(session.value.guestId)]
    ensures o.error.None? <==> session.Some? && form.reservationId in OwnedIds(s, session.value.guestId) && !rejected
    ensures session.Some? && form.reservationId in OwnedIds(s, session.value.guestId) && rejected ==>
      && o.error == Some(ActionError(StoreFailure, CouldNotEdit))
      && LeftUntouched(o, s)
      && o.trace == [ResolveSession, QueryGuestBookings(session.value.guestId), CallStore(UpdateBookings(form.reservationId))]
    ensures o.error.None? ==>
      var id := form.reservationId;
      && o.store.guests == s.guests
      && o.store.bookings.Keys == s.bookings.Keys
      && (forall k :: k in s.bookings && k != id ==> o.store.bookings[k] == s.bookings[k])
      && SameExceptEditable(s.bookings[id], o.store.bookings[id])
      && o.store.bookings[id].numGuests == form.numGuests
      && Truncated(o.store.bookings[id].observations, form.observations)
      && o.trace == [ResolveSession, QueryGuestBookings(session.value.guestId), CallStore(UpdateBookings(id))]
      && o.invalidated == [ReservationsPath, EditPath(id)]
      && o.redirect == Some(ReservationsPath)
  {
    if session.None? then Rejected(s, Unauthenticated, LogInToEdit, [ResolveSession])
    else
      var g := session.value.guestId;
      var id := form.reservationId;
      if id !in OwnedIds(s, g) then
        Rejected(s, Forbidden, NotAllowedToEdit, [ResolveSession, QueryGuestBookings(g)])
      else
        var trace := [ResolveSession, QueryGuestBookings(g), CallStore(UpdateBookings(id))];
        match UpdateBookingRow(s, id, form.numGuests, Slice(form.observations, MaxObservations), rejected)
        case None => Rejected(s, StoreFailure, CouldNotEdit, trace)
        case Some(s') => Outcome(s', None, trace, [ReservationsPath, EditPath(id)], Some(ReservationsPath))
  }
}
