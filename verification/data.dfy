/** The records the actions read and write, the session, and the remote store
    as the actions see it: two tables keyed by id, and the four store calls the
    actions make, each of which may be rejected by the remote side. */
module Data {
  import opened Wrappers

  /** Row ids, guest ids and cabin ids are JavaScript numbers holding integers. */
  type Id = int

  const Unconfirmed: string := "unconfirmed"

  datatype Booking = Booking(
    id: Id,
    guestId: Id,
    cabinId: Id,
    startDate: string,
    endDate: string,
    numNights: int,
    numGuests: int,
    cabinPrice: int,
    extrasPrice: int,
    totalPrice: int,
    status: string,
    isPaid: bool,
    hasBreakfast: bool,
    observations: string)

  datatype Guest = Guest(
    id: Id,
    fullName: string,
    email: string,
    nationality: string,
    countryFlag: string,
    nationalID: string)

  /** The part of the authenticated session the actions use. */
  datatype Session = Session(guestId: Id)

  /** The `bookings` and `guests` tables. */
  datatype Store = Store(bookings: map<Id, Booking>, guests: map<Id, Guest>)

  /** Every row is stored under its own `id` column. */
  predicate WellFormed(s: Store)
  {
    && (forall k :: k in s.bookings ==> s.bookings[k].id == k)
    && (forall k :: k in s.guests ==> s.guests[k].id == k)
  }

  /** Ids of the bookings that `getBookings(guestId)` returns. That query is not
      part of this model; it is assumed to select exactly the bookings whose
      `guestId` column equals the argument. */
  function OwnedIds(s: Store, guestId: Id): set<Id>
  {
    set k | k in s.bookings && s.bookings[k].guestId == guestId
  }

  /** The booking records of one guest. */
  function GuestRecords(s: Store, guestId: Id): set<Booking>
  {
    set k | k in s.bookings && s.bookings[k].guestId == guestId :: s.bookings[k]
  }

  /** The columns `updateGuestProfile` writes. `countryFlag` is `None` when the
      destructured value was `undefined`; such a key is dropped from the update
      body and the column keeps its value. */
  datatype GuestPatch = GuestPatch(nationality: string, countryFlag: Option<string>, nationalID: string)

  function ApplyGuestPatch(g: Guest, p: GuestPatch): Guest
  {
    g.(nationality := p.nationality,
       countryFlag := if p.countryFlag.Some? then p.countryFlag.value else g.countryFlag,
       nationalID := p.nationalID)
  }

  // The store calls. `rejected` stands for the remote store answering with an
  // error (network, permissions, constraint); `None` is that error.

  /** `insert([b])`: fails on a remote error or a duplicate primary key. */
  function InsertBooking(s: Store, b: Booking, rejected: bool): Option<Store>
  {
    if rejected || b.id in s.bookings then None
    else Some(s.(bookings := s.bookings[b.id := b]))
  }

  /** `update({numGuests, observations}).eq("id", id)`: no matching row is not an
      error, it updates nothing. */
  function UpdateBookingRow(s: Store, id: Id, numGuests: int, observations: string, rejected: bool): Option<Store>
  {
    if rejected then None
    else if id in s.bookings then
      Some(s.(bookings := s.bookings[id := s.bookings[id].(numGuests := numGuests, observations := observations)]))
    else Some(s)
  }

  /** `delete().eq("id", id).select().single()`: answers with the deleted row;
      `single()` fails unless exactly one row was affected. */
  function DeleteBookingRow(s: Store, id: Id, rejected: bool): Option<(Store, Booking)>
  {
    if rejected || id !in s.bookings then None
    else Some((s.(bookings := s.bookings - {id}), s.bookings[id]))
  }

  /** `update(patch).eq("id", guestId)` on `guests`. */
  function UpdateGuestRow(s: Store, guestId: Id, p: GuestPatch, rejected: bool): Option<Store>
  {
    if rejected then None
    else if guestId in s.guests then Some(s.(guests := s.guests[guestId := ApplyGuestPatch(s.guests[guestId], p)]))
    else Some(s)
  }
}
