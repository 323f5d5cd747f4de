/** The records of the booking application: tables, reservations, and the
    rules that their field declarations and `Table.clean` put on them. */
module Models {

  datatype Option<+T> = None | Some(value: T)

  /** Largest value a `PositiveSmallIntegerField` holds on every database
      the framework supports; its smallest is 0. Some backends (MySQL, up to
      65535) accept more; the model keeps the portable bound. */
  const SmallUintMax: int := 32767

  /** The values of a `PositiveSmallIntegerField`. */
  type SmallUint = x: int | 0 <= x <= SmallUintMax

  /** Seat range that `Table.clean` accepts. */
  const MinTableSeats: int := 4
  const MaxTableSeats: int := 10

  /** `cost` is a `DecimalField(max_digits=10, decimal_places=2)`; the model
      keeps it as a whole number of cents, so the two fractional digits are
      exact and the ten-digit limit becomes a bound on the cents. */
  const CostMaxDigits: nat := 10
  const CostBound: int := 10_000_000_000

  type Cents = c: int | -CostBound < c < CostBound

  /** Users are identified by their primary key. */
  type UserId = nat

  /** A table of the restaurant; `tableNumber` is unique among all tables. */
  datatype Table = Table(tableNumber: SmallUint, totalSeats: SmallUint)

  /** A booking: who made it, for which table (by its unique number), for how
      many seats, at what cost, and whether it is still active. */
  datatype Reservation = Reservation(
    user: UserId,
    table: SmallUint,
    numberOfSeats: SmallUint,
    cost: Cents,
    active: bool)

  /** The fields a client submits for a reservation; `active` may be omitted. */
  datatype ReservationData = ReservationData(
    table: SmallUint,
    numberOfSeats: SmallUint,
    cost: Cents,
    active: Option<bool>)

  /** Outcome of a model validation hook: it returns, or raises a
      `ValidationError` with a message. */
  datatype Outcome = Pass | Fail(message: string)

  const SeatsRangeMessage: string := "Total seats must be between 4 and 10."

  /** Field validation of a submitted integer for a `PositiveSmallIntegerField`. */
  function SmallUintOf(x: int): (r: Option<SmallUint>)
    ensures r.Some? <==> 0 <= x <= SmallUintMax
    ensures r.Some? ==> r.value == x
  {
    if 0 <= x <= SmallUintMax then Some(x) else None
  }

  /** Field validation of a submitted table: both fields must be
      `PositiveSmallIntegerField` values, and are kept as given. */
  function SubmittedTable(number: int, seats: int): (r: Option<Table>)
    ensures r.Some? <==> 0 <= number <= SmallUintMax && 0 <= seats <= SmallUintMax
    ensures r.Some? ==> r.value.tableNumber == number && r.value.totalSeats == seats
  {
    match (SmallUintOf(number), SmallUintOf(seats))
    case (Some(n), Some(s)) => Some(Table(n, s))
    case _ => None
  }

  /** A table whose seat count lies in the range the restaurant allows. */
  predicate ValidTable(t: Table) {
    MinTableSeats <= t.totalSeats <= MaxTableSeats
  }

  /** `Table.clean`: checks the seat count and changes nothing. */
  function Clean(t: Table): (r: Outcome)
    ensures r == Pass <==> ValidTable(t)
    ensures r.Fail? ==> r.message == SeatsRangeMessage
  {
    if t.totalSeats < MinTableSeats || t.totalSeats > MaxTableSeats then
      Fail(SeatsRangeMessage)
    else
      Pass
  }

  /** Saving submitted reservation fields for a user: every submitted field is
      kept, and `active` is true unless the client set it otherwise. */
  function NewReservation(user: UserId, data: ReservationData): (r: Reservation)
    ensures r.user == user && r.table == data.table
    ensures r.numberOfSeats == data.numberOfSeats && r.cost == data.cost
    ensures r.active <==> data.active != Some(false)
  {
    Reservation(user, data.table, data.numberOfSeats, data.cost,
                match data.active case Some(b) => b case None => true)
  }

  /** Number of decimal digits of `n`. */
  function Digits(n: nat): (d: nat)
    ensures d >= 1
  {
    if n < 10 then 1 else 1 + Digits(n / 10)
  }

  function Pow10(k: nat): (p: nat)
    ensures p >= 1
  {
    if k == 0 then 1 else 10 * Pow10(k - 1)
  }

  function Abs(x: int): nat {
    if x < 0 then -x else x
  }

  /** The `max_digits` rule for a cost given in cents (two digits after the
      point, so every digit of the cents counts). */
  predicate CostFieldAccepts(cents: int) {
    Digits(Abs(cents)) <= CostMaxDigits
  }

  /** Having at most `k` digits is the same as lying below 10^k. */
  lemma {:induction false} DigitsBound(n: nat, k: nat)
    requires k >= 1
    ensures Digits(n) <= k <==> n < Pow10(k)
  {
    if n >= 10 {
      if k == 1 {
        assert Digits(n) == 1 + Digits(n / 10) >= 2;
        assert Pow10(1) == 10;
      } else {
        DigitsBound(n / 10, k - 1);
        assert Pow10(k) == 10 * Pow10(k - 1);
      }
    } else {
      assert Pow10(k) == 10 * Pow10(k - 1) >= 10;
    }
  }

  /** The cost column accepts exactly the amounts of `Cents`: fewer than
      10^10 cents either way. */
  lemma CostFieldRange(cents: int)
    ensures CostFieldAccepts(cents) <==> -CostBound < cents < CostBound
  {
    DigitsBound(Abs(cents), CostMaxDigits);
    assert Pow10(CostMaxDigits) == CostBound by {
      assert Pow10(5) == 100_000;
    }
  }
}
