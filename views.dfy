/** The table and reservation endpoints: creating a table under the
    ten-table cap, listing a user's own reservations, and creating a
    reservation on behalf of the requesting user. */
module Views {
  import opened Models

  /** Largest number of tables the table endpoint lets the store reach. */
  const MaxTables: int := 10

  const TableCapMessage: string := "Cannot create more than 10 tables."

  /** Why a create request is refused: a table number already in use (the
      unique constraint), a reservation naming a table that does not exist
      (the foreign key), or a `ValidationError` raised by the view. */
  datatype Error = DuplicateTableNumber | UnknownTable | ValidationError(detail: string)

  datatype Result<+T> = Ok(value: T) | Err(error: Error)

  predicate NumberTaken(tables: seq<Table>, n: int) {
    exists i :: 0 <= i < |tables| && tables[i].tableNumber == n
  }

  /** No two tables share a `tableNumber`. */
  predicate UniqueNumbers(tables: seq<Table>) {
    forall i, j :: 0 <= i < j < |tables| ==> tables[i].tableNumber != tables[j].tableNumber
  }

  /** The table store after one create request: the unique number is checked
      first, then the cap on the number of tables, and only then is the table
      saved as submitted. */
  function AddTable(tables: seq<Table>, t: Table): (r: Result<seq<Table>>)
    ensures r.Ok? <==> !NumberTaken(tables, t.tableNumber) && |tables| < MaxTables
    ensures r.Ok? ==> r.value == tables + [t]
    ensures (r == Err(ValidationError(TableCapMessage)))
            <==> !NumberTaken(tables, t.tableNumber) && |tables| >= MaxTables
    ensures r == Err(DuplicateTableNumber) <==> NumberTaken(tables, t.tableNumber)
    ensures r.Ok? && UniqueNumbers(tables) ==> UniqueNumbers(r.value) && |r.value| <= MaxTables
  {
    if NumberTaken(tables, t.tableNumber) then
      Err(DuplicateTableNumber)
    else if |tables| >= MaxTables then
      Err(ValidationError(TableCapMessage))
    else
      Ok(tables + [t])
  }

  /** The table store after a whole series of create requests, each one that
      is refused leaving the store as it was. */
  function CreateAll(tables: seq<Table>, submitted: seq<Table>): seq<Table>
    decreases |submitted|
  {
    if submitted == [] then
      tables
    else
      var next := AddTable(tables, submitted[0]);
      CreateAll(if next.Ok? then next.value else tables, submitted[1..])
  }

  /** Creation through the endpoint only ever appends, never takes a store
      of at most ten tables past ten, and never changes a full store. */
  lemma {:induction false} CreationsRespectCap(tables: seq<Table>, submitted: seq<Table>)
    ensures tables <= CreateAll(tables, submitted)
    ensures |tables| <= MaxTables ==> |CreateAll(tables, submitted)| <= MaxTables
    ensures |tables| >= MaxTables ==> CreateAll(tables, submitted) == tables
    decreases |submitted|
  {
    if submitted != [] {
      var next := AddTable(tables, submitted[0]);
      var after := if next.Ok? then next.value else tables;
      CreationsRespectCap(after, submitted[1..]);
    }
  }

  /** Creation through the endpoint keeps table numbers unique. */
  lemma {:induction false} CreationsKeepNumbersUnique(tables: seq<Table>, submitted: seq<Table>)
    requires UniqueNumbers(tables)
    ensures UniqueNumbers(CreateAll(tables, submitted))
    decreases |submitted|
  {
    if submitted != [] {
      var next := AddTable(tables, submitted[0]);
      var after := if next.Ok? then next.value else tables;
      CreationsKeepNumbersUnique(after, submitted[1..]);
    }
  }

  /** `get_queryset`: the reservations of user `u`. The query fixes no
      order; this definition lists them in store order. */
  function Mine(rs: seq<Reservation>, u: UserId): seq<Reservation>
    decreases |rs|
  {
    if rs == [] then [] else (if rs[0].user == u then [rs[0]] else []) + Mine(rs[1..], u)
  }

  /** The listing holds each of the user's reservations as often as the
      store does, and nothing of anyone else. */
  lemma {:induction false} MineExactly(rs: seq<Reservation>, u: UserId)
    ensures forall x :: multiset(Mine(rs, u))[x] == if x.user == u then multiset(rs)[x] else 0
    ensures forall x :: x in Mine(rs, u) <==> x in rs && x.user == u
    decreases |rs|
  {
    if rs != [] {
      MineExactly(rs[1..], u);
      assert rs == [rs[0]] + rs[1..];
      assert multiset(rs) == multiset([rs[0]]) + multiset(rs[1..]);
    }
  }

  /** Listing a store made of two parts lists each part in turn (an order
      chosen by the model, not one the query guarantees). */
  lemma {:induction false} MineConcat(a: seq<Reservation>, b: seq<Reservation>, u: UserId)
    ensures Mine(a + b, u) == Mine(a, u) + Mine(b, u)
    decreases |a|
  {
    if a == [] {
      assert a + b == b;
    } else {
      assert (a + b)[0] == a[0] && (a + b)[1..] == a[1..] + b;
      MineConcat(a[1..], b, u);
    }
  }

  /** The database behind the endpoints: every table and every reservation. */
  class Store {
    var tables: seq<Table>
    var reservations: seq<Reservation>

    /** Table numbers are unique and every reservation refers to a table. */
    ghost predicate Valid()
      reads this
    {
      UniqueNumbers(tables) &&
      forall i :: 0 <= i < |reservations| ==> NumberTaken(tables, reservations[i].table)
    }

    constructor ()
      ensures Valid() && tables == [] && reservations == []
    {
      tables := [];
      reservations := [];
    }

    /** `TableViewSet.perform_create`, preceded by the unique-number check
        the table's declaration imposes. */
    method CreateTable(t: Table) returns (r: Result<Table>)
      requires Valid()
      modifies this
      ensures Valid()
      ensures r.Ok? <==> AddTable(old(tables), t).Ok?
      ensures r.Ok? ==> r.value == t && tables == old(tables) + [t]
      ensures r.Err? ==> r.error == AddTable(old(tables), t).error && tables == old(tables)
      ensures |old(tables)| <= MaxTables ==> |tables| <= MaxTables
      ensures reservations == old(reservations)
    {
      var next := AddTable(tables, t);
      if next.Err? {
        return Err(next.error);
      }
      ghost var before := tables;
      tables := next.value;
      forall i | 0 <= i < |reservations|
        ensures NumberTaken(tables, reservations[i].table)
      {
        assert NumberTaken(before, reservations[i].table);
        var k :| 0 <= k < |before| && before[k].tableNumber == reservations[i].table;
        assert tables[k] == before[k];
      }
      r := Ok(t);
    }

    /** `ReservationViewSet.perform_create`: the submitted fields are saved
        with `user` set to the requesting user. */
    method CreateReservation(u: UserId, data: ReservationData) returns (r: Result<Reservation>)
      requires Valid()
      modifies this
      ensures Valid()
      ensures tables == old(tables)
      ensures r.Ok? <==> NumberTaken(tables, data.table)
      ensures r.Ok? ==> r.value == NewReservation(u, data) && r.value.user == u
      ensures r.Ok? ==> reservations == old(reservations) + [r.value]
      ensures r.Err? ==> r.error == UnknownTable && reservations == old(reservations)
      ensures r.Ok? ==> Mine(reservations, u) == Mine(old(reservations), u) + [r.value]
      ensures forall v :: v != u ==> Mine(reservations, v) == Mine(old(reservations), v)
    {
      if !NumberTaken(tables, data.table) {
        return Err(UnknownTable);
      }
      var created := NewReservation(u, data);
      reservations := reservations + [created];
      forall v
        ensures Mine(reservations, v) == Mine(old(reservations), v) + Mine([created], v)
      {
        MineConcat(old(reservations), [created], v);
      }
      assert Mine([created], u) == [created] by {
        assert [created][1..] == [];
      }
      forall v | v != u
        ensures Mine([created], v) == []
      {
        assert [created][1..] == [];
      }
      r := Ok(created);
    }
  }
}
