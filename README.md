# Restaurant booking: tables, the ten-table cap and owner-scoped reservations

This project models the core of a restaurant table-reservation backend.
A **table** has a unique `table_number` and a `total_seats` count; its
`clean` hook accepts only 4 to 10 seats. A **reservation** records the user
who made it, the table, the number of seats, a cost with two decimal places
and an `active` flag that starts out true. Two endpoints act on these
records: the table endpoint refuses to create a table once ten exist, and the
reservation endpoint lists only the requesting user's reservations and stamps
every reservation it creates with that user.

- `models.dfy` (module `Models`): the `Table`, `Reservation` and
  `ReservationData` records, the `PositiveSmallIntegerField` range as the
  type `SmallUint`, the cost as whole cents (`Cents`), `Table.clean` as
  `Clean`, and the creation defaults as `NewReservation`.
- `views.dfy` (module `Views`): one create request on the table store as the
  pure function `AddTable`, a series of them as `CreateAll`, the user filter
  of `get_queryset` as `Mine`, and a `Store` class holding every table and
  reservation whose `CreateTable` and `CreateReservation` methods append
  under their guards.

The store invariant `Store.Valid` says table numbers are unique and every
reservation names an existing table. The cap is not part of the invariant:
tables can be created outside the endpoint. What is proved instead is that
the endpoint never takes a store of at most ten tables past ten, and never
changes a store that already holds ten.

Choices made in the model:
- Table numbers are checked for uniqueness before the cap.
  `table_number` is declared unique (booking/models.py:9). The framework
  validates submitted data, unique fields included, before it calls
  `perform_create`. A duplicate number is therefore refused even when fewer
  than ten tables exist, and it is refused as a duplicate rather than with
  the cap message.
- A reservation refers to its table by `table_number`. The number is unique,
  so it identifies the row the foreign key points at. A reservation naming no
  existing table is refused (`UnknownTable`), as the foreign key demands.
- The endpoint does not call `Table.clean` (booking/views.py:12-15).
  `Clean` and the cap are therefore separate guards: the model does not claim
  that tables created through the endpoint have 4 to 10 seats.
- `cost` is kept in cents. `DecimalField(max_digits=10, decimal_places=2)`
  then allows exactly the integers whose magnitude is below 10^10.
  `CostFieldRange` proves that this bound and the ten-digit rule agree.

## Model

| member | source | states |
|---|---|---|
| `Models.SmallUintOf` | booking/models.py:9-10 | a submitted integer is accepted for a `PositiveSmallIntegerField` exactly when it lies in the portable range 0..32767, and is then kept unchanged |
| `Models.SubmittedTable` | booking/models.py:8-10 | a submitted table passes field validation exactly when its number and seat count both lie in 0..32767, and keeps both as given |
| `Models.Clean` | booking/models.py:12-14 | `clean` passes exactly when `total_seats` is in 4..10 (so 3 and 11 fail, 4 and 10 pass) and otherwise fails with "Total seats must be between 4 and 10."; as a function on values it cannot alter the table |
| `Models.NewReservation` | booking/models.py:20-30 | a saved reservation keeps every submitted field and the given user, and is active unless the client set `active` to false |
| `Models.DigitsBound` | booking/models.py:28 | a natural number has at most k decimal digits exactly when it is below 10^k |
| `Models.CostFieldRange` | booking/models.py:28 | a cost in cents satisfies the ten-digit limit exactly when it lies strictly between -10^10 and 10^10 |
| `Views.AddTable` | booking/views.py:12-15 | one table creation succeeds exactly when the number is free and fewer than 10 tables exist, and then appends exactly the submitted table; a free number with 10 or more tables fails with "Cannot create more than 10 tables."; a taken number fails as a duplicate whatever the count; a success keeps numbers unique and the count at most 10 |
| `Views.CreationsRespectCap` | booking/views.py:12-15 | any series of table creations only appends, never takes a store of at most 10 tables past 10, and leaves a store of 10 or more unchanged |
| `Views.CreationsKeepNumbersUnique` | booking/models.py:9 | any series of table creations keeps table numbers unique |
| `Views.MineExactly` | booking/views.py:23-24 | the listing for user U holds exactly the reservations whose user is U, each as many times as the store does, and nothing else |
| `Views.MineConcat` | booking/views.py:23-24 | listing a store made of two parts gives the first part's listing followed by the second's; this fixes an order (store order) that the query itself does not promise |
| `Views.Store.CreateTable` | booking/views.py:12-15 | creation computes `AddTable` and follows it: success appends exactly the submitted table and returns it as given; a refusal leaves the tables unchanged; a store of at most 10 stays at most 10; reservations are untouched and the invariant is kept |
| `Views.Store.CreateReservation` | booking/views.py:26-27 | the new reservation carries the requesting user and the submitted fields, is appended as one record, and leaves every table and earlier reservation unchanged; the creator's listing gains exactly that record and every other user's listing is unchanged |

## Left out

- Seat-count normalisation, the "cheapest, then smallest" table allocation and cost calculation are left out. The tests call `Reservation.validate_number_of_seats`, `Table.objects.get_best_available_table` and `Table.calculate_cost`, and pass a `price` argument. booking/models.py defines none of these and has no price field, so there is no behaviour to model. The tests also disagree on which seat counts are valid. The model follows the code.
- Reservation cancellation (the ownership check and the "already cancelled" refusal) is left out. The tests exercise it, but booking/views.py defines no cancel action.
- Views.Store.CreateReservation: booking/views.py:3 imports a `ReservationSerializer` that booking/serializers.py does not define, so as written the import fails and neither endpoint can load. The model assumes a serializer through which the client writes `table`, `number_of_seats`, `cost` and optionally `active`, and does not send `user`. Neither existing serializer has that shape: `ReservationCreateSerializer` makes `cost` and `table` read-only (booking/serializers.py:26-27), and `ReservationListSerializer` lists `user` as a writable, required field (booking/serializers.py:16), which would refuse a request without it before `perform_create` runs.
- Models.SmallUintOf: uses 0..32767, the range of a `PositiveSmallIntegerField` on every supported database. The real limit depends on the database backend, and MySQL accepts up to 65535. The settings file that chooses the backend is not part of this model.
- Views.MineConcat: the listing query (booking/views.py:24) has no `order_by`, and `Reservation` declares no default ordering, so the source promises no order. The model lists in store order. So the clause of `Views.Store.CreateReservation` that puts the new record last in its creator's listing is a fact about the model, not the source. The order-free promise is `Views.MineExactly`.
- Authentication, JWT issuance and refresh, and the `IsAuthenticated` permission are left out. The requesting user is a parameter.
- HTTP status codes and the mapping of errors to responses are left out.
- The messages for a duplicate table number and an unknown table come from the framework, not the source. The model keeps only the error kinds.
- `booked_at` is left out: it is a clock reading.
- Record primary keys are not modelled. Deleting records, with its cascade, is not modelled either: no core operation deletes.
- Concurrent table creation is left out. The count check and the save are not atomic in the source, so two simultaneous requests can both pass the check at 9 tables. Each create is modelled as one atomic step.
- `__str__` of both records is left out: it only formats text.
