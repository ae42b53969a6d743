# The Wild Oasis guest area: reservation mutations and optimistic delete, in Dafny

This project models the core of the guest-facing site of *The Wild Oasis*, a
cabin-booking application: the four server actions that change data
(`createReservation`, `updateReservation`, `deleteReservation`,
`updateGuestProfile` in `app/_lib/actions.js`) and the optimistic delete of the
reservation list (`app/_components/ReservationList.js`).

Each server action is a pure function of

- the store: the `bookings` and `guests` tables, as maps from id to record;
- the session: `Option<Session>`, carrying the guest id;
- the submitted form, with numbers already parsed;
- `rejected`: whether the remote store answers the one store call with an error.

It returns an `Outcome`. The outcome holds:

- the store afterwards;
- the error the action throws, if any, with its exact message and its kind (Unauthenticated, Forbidden, Validation, StoreFailure);
- the trace of collaborator calls: session, ownership query, store;
- the paths passed to `revalidatePath`, in order;
- the `redirect` target.

The reservation list is a two-state view:

- Authoritative: shows the server-provided `bookings` prop.
- Speculative: shows that baseline with the pending ids filtered out.

`Reconcile.HandleDelete` joins one client delete to the server action it calls.

Modules: `Wrappers` (Option), `Text` (`slice`, `split`), `Numerals` (integer
to string inside paths), `NationalId` (the national-ID pattern), `Data` (records,
store, store calls), `Actions` (the four actions), `ActionProperties`
(properties over several calls), `Optimistic` (the list filter and view),
`Reconcile` (`handleDelete`).

Notes on what the code does:

- create revalidates `"account/reservations"`, without the leading slash;
- errors carry the code's messages, e.g. "You are not allowed to delete this reservation"; the model also tags each with a kind (Unauthenticated, Forbidden, Validation, StoreFailure);
- the nationality field is split on every `%`: pieces after the second are dropped, and a missing flag is `undefined`;
- after a successful delete the list shows the refreshed `bookings` prop.

Assumptions:

- `getBookings(guestId)` lives in `data-service.js`, which is not part of this model. It is assumed to return exactly the bookings whose `guestId` equals the argument (`Data.OwnedIds`).
- An `update` that matches no row is not an error.
- A key whose value is `undefined` is dropped from the update body. So a nationality without `%` leaves `countryFlag` unchanged.

## Model

| member | source | states |
|---|---|---|
| `Actions.CreateRevalidating` | app/_lib/actions.js:9-35 | No session: fails with "You must be logged in order to create reservation", store unchanged, nothing revalidated, only the session resolved. Succeeds iff there is a session, the store accepts, and the row id is new. The row id is the `id` spread from `reservationData` if present, else `nextId`, which stands for the id the store assigns; an id already in the table makes the insert fail with "Booking could not be created". Store failure: "Booking could not be created", store unchanged, nothing revalidated. On success the one new row has guestId from the session, status "unconfirmed", not paid, no breakfast, extrasPrice 0, totalPrice = cabinPrice. cabin, dates, nights and cabinPrice pass through. numGuests comes from the form; observations are the form text cut to 1000 characters. No other row and no guest changes. Then two paths are revalidated (reservations list, then `/cabins/{cabinId}`) and it redirects to `/cabins/thankyou` |
| `Actions.CreateReservation` | app/_lib/actions.js:32-34 | As written: a successful create revalidates exactly `"account/reservations"` and `/cabins/{cabinId}`, and never `/account/reservations` |
| `Actions.CreateReservationIntended` | app/_lib/actions.js:32-33 | Corrected spelling: a successful create revalidates `/account/reservations` and `/cabins/{cabinId}` |
| `Actions.ProfilePatch` | app/_lib/actions.js:42-49 | nationality is the text before the first `%`, with no `%` in it. A flag exists iff the field contains `%`. The flag is the text between the first and second `%` (or up to the end). The national id is copied as submitted |
| `Actions.UpdateGuestProfile` | app/_lib/actions.js:37-60 | No session: the login error. An id that fails the pattern: "Please provide a valid national ID", with no store call. Succeeds iff there is a session, the id is valid, and the store accepts. Store failure: "Guest could not be updated". On success only the session's guest row changes (when it exists), in nationality, flag and national id; other guests keep theirs. Bookings do not change. Only `/account/profile` is revalidated. No redirect |
| `Actions.DeleteReservation` | app/_lib/actions.js:62-82 | No session: the login error. Target not among the guest's booking ids: "You are not allowed to delete this reservation", after the ownership query, with no store call and the store unchanged. Succeeds iff there is a session, the target is owned, and the store accepts. Store failure: "Booking could not be deleted". On success exactly the target row is removed. Revalidates `/account/reservations` and `/cabins/{cabinId of the deleted row}`. No redirect |
| `Actions.UpdateReservation` | app/_lib/actions.js:84-110 | No session: the login error. Target not owned: "You are not allowed to edit this reservation", with no store call. Succeeds iff there is a session, the target is owned, and the store accepts. Store failure: "Booking could not be edited". On success only numGuests and the truncated observations of the target row change; every other column, row and guest stays. Revalidates `/account/reservations` and `/account/reservations/edit/{id}`. Redirects to `/account/reservations` |
| `Text.Slice` | app/_lib/actions.js:17 | `slice(0, n)` returns the prefix of length min(\|s\|, n). Text of n characters or fewer is returned unchanged |
| `Text.Split` | app/_lib/actions.js:43 | `split("%")` returns at least one piece, and no piece contains the separator. The first piece is the prefix before the first separator. There are two or more pieces iff the separator occurs |
| `Text.JoinSplit` | app/_lib/actions.js:43 | Joining the pieces of a split with the separator gives back the original text |
| `Text.SplitJoin` | app/_lib/actions.js:43 | Splitting a join of separator-free pieces gives back those pieces |
| `Numerals.NumberToString` | app/_lib/actions.js:33 | An integer rendered in a path is non-empty and starts with `-` iff the integer is negative |
| `Numerals.ParseDecimalOfDecimal` | app/_lib/actions.js:33 | Reading the decimal digits of a natural number back gives that number |
| `Numerals.NumberToStringInjective` | app/_lib/actions.js:33 | Different ids render as different strings, so `/cabins/{id}` names one cabin |
| `NationalId.Test` | app/_lib/actions.js:45-46 | A greedy scan emulating `/^[a-zA-Z0-9]{6,12}$/.test` matches iff the id is 6 to 12 characters, all ASCII letters or digits |
| `ActionProperties.CreateFollowsPipeline` | app/_lib/actions.js:9-35 | Create resolves the session first and then calls the store at most once. It succeeds only after a store call, and on failure it revalidates nothing and does not redirect |
| `ActionProperties.UpdateGuestProfileFollowsPipeline` | app/_lib/actions.js:37-60 | The same order for the profile update |
| `ActionProperties.DeleteFollowsPipeline` | app/_lib/actions.js:62-82 | The order for delete: session, then ownership query, then store call, then revalidation, with each step at most once |
| `ActionProperties.UpdateReservationFollowsPipeline` | app/_lib/actions.js:84-110 | The same order for the edit |
| `ActionProperties.StoreCalledOnlyAfterGuards` | app/_lib/actions.js:9-110 | The store is reached only with a session. Delete and edit reach it only for a booking of the session's guest. The profile update reaches it only with a valid national id |
| `ActionProperties.OtherGuestsBookingsUntouched` | app/_lib/actions.js:9-110 | No action, whatever its outcome, removes or changes a booking that belongs to another guest |
| `ActionProperties.ActionsPreserveWellFormed` | app/_lib/actions.js:9-110 | Every action keeps each row stored under its own id |
| `ActionProperties.CreateIgnoresClientClaims` | app/_lib/actions.js:13-23 | Client-supplied values for guestId, numGuests, observations, prices, status, isPaid and hasBreakfast never change the outcome of create |
| `ActionProperties.CreateThenDeleteRestores` | app/_lib/actions.js:9-82 | Deleting, as the same guest, a booking just created succeeds and restores the original store |
| `ActionProperties.SecondDeleteForbidden` | app/_lib/actions.js:67-70 | After a successful delete, deleting the same id again is refused as not allowed and changes nothing |
| `ActionProperties.EditIdempotent` | app/_lib/actions.js:96-103 | Submitting the same edit twice leaves the same store as submitting it once |
| `ActionProperties.ProfileUpdateIdempotent` | app/_lib/actions.js:49-53 | Submitting the same profile form twice leaves the same store as submitting it once |
| `ActionProperties.BookingChangesRevalidateList` | app/_lib/actions.js:32-108 | With the corrected create, every successful create, edit or delete revalidates `/account/reservations` |
| `ActionProperties.CreateAsWrittenMissesReservationsList` | app/_lib/actions.js:32 | A concrete successful create that revalidates `"account/reservations"` and `/cabins/7`, and not `/account/reservations` |
| `ActionProperties.ClaimedStatusOverridden` | app/_lib/actions.js:20-21 | A client claiming status "confirmed" and isPaid true still gets an unconfirmed, unpaid booking |
| `ActionProperties.DeleteOthersBookingForbidden` | app/_lib/actions.js:67-70 | Guest 1 deleting the booking of guest 2 is refused as not allowed |
| `ActionProperties.NationalityAndFlagSplit` | app/_lib/actions.js:43 | `"French%🇫🇷"` gives nationality `"French"` and flag `"🇫🇷"` |
| `Optimistic.RemoveBooking` | app/_components/ReservationList.js:12-14 | The filter never lengthens the list |
| `Optimistic.RemoveMembership` | app/_components/ReservationList.js:13 | A booking survives the filter iff it was in the list and its id differs from the target |
| `Optimistic.RemoveKeepsOrder` | app/_components/ReservationList.js:13 | The result is a subsequence of the input, so surviving bookings keep their relative order |
| `Optimistic.RemoveLength` | app/_components/ReservationList.js:13 | The result is shorter than the input by exactly the number of bookings with the target id |
| `Optimistic.RemoveAbsent` | app/_components/ReservationList.js:13 | Removing an id that is not in the list returns the list unchanged |
| `Optimistic.RemoveIdempotent` | app/_components/ReservationList.js:13 | Removing the same id twice equals removing it once |
| `Optimistic.RemoveCommutes` | app/_components/ReservationList.js:13 | Removing two ids in either order gives the same list |
| `Optimistic.OptimisticDelete` | app/_components/ReservationList.js:10-17 | An optimistic delete makes the view Speculative and keeps the baseline. The shown list becomes the previous shown list with the target filtered out, so it no longer contains the target |
| `Optimistic.Settle` | app/_components/ReservationList.js:8-11 | When the request settles the view is Authoritative with nothing pending. It shows the baseline after a failure and the refreshed prop after a success |
| `Reconcile.HandleDelete` | app/_components/ReservationList.js:16-19 | First the optimistic removal is applied (queued for the next render, not yet rendered), then the delete request is started, then the settled view is shown. The applied list lacks the target. That final view is the baseline if the server action failed and the refreshed list if it succeeded |
| `Reconcile.SpeculationMatchesServer` | app/_components/ReservationList.js:16-19 | Suppose the list shows exactly the guest's bookings. Then the optimistic list equals the server's bookings for that guest after a successful delete, and also after a not-allowed refusal. After any failure the view returns to the baseline and the store is unchanged |
| `Reconcile.DeleteFromThreeThenRevert` | app/_components/ReservationList.js:16-19 | Deleting 42 from [1, 42, 7] shows [1, 7] at once. If the server fails, the list shows [1, 42, 7] again |

## Left out

- Network calls to the store, `console.error`, and how `revalidatePath` and `redirect` work inside the framework: the store is a pair of maps; a remote error is the `rejected` flag; revalidations and redirects are outcome fields.
- `auth()`, `signInAction` and `signOutAction` (app/_lib/actions.js:114-120): opaque wrappers over the authentication provider. The session is an input.
- `getBookings` (data-service.js) is not part of this model. Its filter-by-guestId meaning is an assumption.
- The `Number(...)` parsing of `numGuests` and `reservationId`: these arrive as integers. A `NaN` id would match no booking, like any id not owned.
- UTF-16 code units: strings are sequences of characters, so `slice` counts characters.
- Booking date-conflict checking: the source has only a comment (app/_lib/actions.js:24), so no guarantee about overlapping dates is modelled.
- Missing form fields: `.slice` or `.split` on a missing `observations` or `nationality` throws a type error (app/_lib/actions.js:17, 43, 99); the model takes every form value as present.
- Missing `cabinId` or `cabinPrice` in `reservationData`: the source does not throw; `totalPrice` is `undefined` and drops out of the insert body, and the path becomes `/cabins/undefined`. The model takes both as present integers.
- React rendering and its timing (the optimistic update is queued and may be rendered after the server call starts), `ReservationCard`, and the scheduling of several concurrent deletes: pending ids fold in request order, and `Settle` is the moment all of them have settled.
- The gap between the ownership query and the store call: each action reads one store value.
- `app/_contexts/ReservationContext.js`: date-range UI state with a reset, no core logic.
- Numerals.NumberToString: renders every integer as plain decimal digits. JavaScript's `${n}` agrees only for safe integers (|n| < 2^53) below 1e21; larger values use exponent form (`"1e+21"`) or are not exact Numbers. Ids are assumed to be safe integers.
- Optimistic.Settle: the refreshed list after a successful delete is a parameter. It is not computed from the store, because how `getBookings` orders and joins its rows is unknown. `Reconcile.SpeculationMatchesServer` relates the lists as sets instead.

## Findings

| source | as written | input that shows it | evidently intended | confidence | as-written member | corrected member |
|---|---|---|---|---|---|---|
| app/_lib/actions.js:32 | after creating a booking, `revalidatePath("account/reservations")` without the leading slash; delete and edit revalidate `/account/reservations` | any successful create, e.g. cabin 7 for guest 1 into an empty store: revalidated paths are `"account/reservations"`, `"/cabins/7"` | revalidate `/account/reservations`, so the guest's reservation list shows the new booking | medium (whether the framework normalises the missing slash is outside the source); not executed | `ActionProperties.CreateAsWrittenMissesReservationsList` (about `Actions.CreateReservation`) | `Actions.CreateReservationIntended`, with `ActionProperties.BookingChangesRevalidateList` |
