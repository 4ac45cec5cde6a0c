/**
 The bulk importers (backend/app/routers/imports.py) and their seat caps
 (backend/app/seats.py). A row can fail when its savepoint is flushed; and a new
 client's row that carries a `created_by` column fails before the counters move,
 because that argument is then passed twice. The error handler takes the counters
 back either way.
 */
module BulkImport {
  import opened Common

  // --- seats --------------------------------------------------------------

  // None is an unlimited cap.
  function Remaining(cap: Option<int>, current: int): Option<int> {
    if cap.None? then None else Some(Max(0, cap.value - current))
  }

  predicate SeatExceeded(current: int, cap: Option<int>, adding: int) {
    cap.Some? && current + adding > cap.value
  }

  // The importer's local budget lets a row through exactly when the one-row check would.
  lemma RemainingAgreesWithCheck(cap: Option<int>, current: nat)
    ensures (Remaining(cap, current).Some? && Remaining(cap, current).value <= 0) <==> SeatExceeded(current, cap, 1)
  {
  }

  // --- clients ------------------------------------------------------------

  datatype Client = Client(code: string, legalName: string)

  datatype Row = Row(
    code: string,       // empty when the sheet has none
    legalName: string,  // as stored
    strippedName: string,
    feeCents: Option<int>,
    hasCreatedBy: bool)

  const MIN_ANNUAL_FEE_CENTS: int := 5_000

  datatype Tally = Tally(clients: seq<Client>, seatsLeft: Option<int>, created: int, updated: int, failed: int)

  predicate Rejected(row: Row) {
    row.strippedName == "" || (row.feeCents.Some? && 0 < row.feeCents.value < MIN_ANNUAL_FEE_CENTS)
  }

  function FindBy(clients: seq<Client>, matches: Client -> bool): (found: Option<nat>)
    ensures found.Some? ==> found.value < |clients| && matches(clients[found.value]) &&
                            forall i :: 0 <= i < found.value ==> !matches(clients[i])
    ensures found.None? ==> forall i :: 0 <= i < |clients| ==> !matches(clients[i])
  {
    if clients == [] then None
    else if matches(clients[0]) then Some(0)
    else
      match FindBy(clients[1..], matches)
      case Some(i) => Some(i + 1)
      case None => None
  }

  function Existing(clients: seq<Client>, row: Row, updateExisting: bool): (found: Option<nat>)
    ensures found.Some? ==> found.value < |clients|
  {
    if !updateExisting then None
    else
      var byCode := if row.code == "" then None else FindBy(clients, (c: Client) => c.code == row.code);
      if byCode.Some? then byCode else FindBy(clients, (c: Client) => c.legalName == row.strippedName)
  }

  predicate NoSeat(seatsLeft: Option<int>) {
    seatsLeft.Some? && seatsLeft.value <= 0
  }

  function Shift(seatsLeft: Option<int>, by': int): Option<int> {
    if seatsLeft.None? then None else Some(seatsLeft.value + by')
  }

  // The row gets as far as building a new client, and its `created_by` breaks that.
  predicate Stray(t: Tally, row: Row, updateExisting: bool) {
    !Rejected(row) && Existing(t.clients, row, updateExisting).None? && !NoSeat(t.seatsLeft) && row.hasCreatedBy
  }

  function Updated(c: Client, row: Row): Client {
    Client(if row.code == "" then c.code else row.code, row.legalName)
  }

  function ImportRow(t: Tally, row: Row, updateExisting: bool, flushFails: bool): Tally {
    if Rejected(row) then t.(failed := t.failed + 1)
    else
      match Existing(t.clients, row, updateExisting)
      case Some(i) =>
        if flushFails then t.(failed := t.failed + 1)
        else t.(clients := t.clients[i := Updated(t.clients[i], row)], updated := t.updated + 1)
      case None =>
        if NoSeat(t.seatsLeft) then t.(failed := t.failed + 1)
        else if row.hasCreatedBy then
          t.(created := t.created - 1, seatsLeft := Shift(t.seatsLeft, 1), failed := t.failed + 1)
        else if flushFails then t.(failed := t.failed + 1)
        else t.(clients := t.clients + [Client(row.code, row.legalName)],
                created := t.created + 1, seatsLeft := Shift(t.seatsLeft, -1))
  }

  // --- which client a row is about, and what becomes of it --------------------------

  predicate HasCode(clients: seq<Client>, code: string) {
    exists j :: 0 <= j < |clients| && clients[j].code == code
  }

  // The first client with the row's code, or, when it has none of its own or nobody's,
  // the first with its stripped name.
  predicate IsAbout(clients: seq<Client>, row: Row, i: nat) {
    i < |clients| &&
    if row.code != "" && HasCode(clients, row.code) then
      clients[i].code == row.code && forall j :: 0 <= j < i ==> clients[j].code != row.code
    else
      clients[i].legalName == row.strippedName && forall j :: 0 <= j < i ==> clients[j].legalName != row.strippedName
  }

  predicate IsNew(clients: seq<Client>, row: Row) {
    (row.code == "" || !HasCode(clients, row.code)) &&
    forall j :: 0 <= j < |clients| ==> clients[j].legalName != row.strippedName
  }

  lemma ExistingIs(clients: seq<Client>, row: Row)
    ensures Existing(clients, row, false) == None
    ensures Existing(clients, row, true) == None <==> IsNew(clients, row)
    ensures Existing(clients, row, true).Some? ==> IsAbout(clients, row, Existing(clients, row, true).value)
  {
    var byCode := FindBy(clients, (c: Client) => c.code == row.code);
    var byName := FindBy(clients, (c: Client) => c.legalName == row.strippedName);
    assert byCode.Some? <==> HasCode(clients, row.code);
    assert byName.Some? ==> clients[byName.value].legalName == row.strippedName;
  }

  lemma OnlyOneIsMeant(clients: seq<Client>, row: Row, i: nat, k: nat)
    requires IsAbout(clients, row, i) && IsAbout(clients, row, k)
    ensures i == k
  {
  }

  // A row names a client and asks for no fee, or for at least fifty dollars.
  predicate Proper(row: Row) {
    row.strippedName != "" && (row.feeCents == None || row.feeCents.value <= 0 || row.feeCents.value >= 5_000)
  }

  lemma RowUpdates(t: Tally, row: Row, flushFails: bool, i: nat)
    requires Proper(row) && IsAbout(t.clients, row, i)
    ensures var t' := ImportRow(t, row, true, flushFails);
            if flushFails then t' == t.(failed := t.failed + 1)
            else t' == t.(updated := t.updated + 1,
                          clients := t.clients[i := Client(if row.code == "" then t.clients[i].code else row.code, row.legalName)])
  {
    ExistingIs(t.clients, row);
    if Existing(t.clients, row, true).Some? {
      OnlyOneIsMeant(t.clients, row, i, Existing(t.clients, row, true).value);
    }
  }

  lemma RowCreates(t: Tally, row: Row, updateExisting: bool, flushFails: bool)
    requires Proper(row) && !row.hasCreatedBy && (updateExisting ==> IsNew(t.clients, row))
    ensures var t' := ImportRow(t, row, updateExisting, flushFails);
            if flushFails || (t.seatsLeft.Some? && t.seatsLeft.value <= 0) then t' == t.(failed := t.failed + 1)
            else t' == t.(created := t.created + 1, clients := t.clients + [Client(row.code, row.legalName)],
                          seatsLeft := if t.seatsLeft.Some? then Some(t.seatsLeft.value - 1) else None)
  {
    ExistingIs(t.clients, row);
  }

  lemma ImproperRowFails(t: Tally, row: Row, updateExisting: bool, flushFails: bool)
    requires !Proper(row)
    ensures ImportRow(t, row, updateExisting, flushFails) == t.(failed := t.failed + 1)
  {
  }

  function Import(clients: seq<Client>, cap: Option<int>, rows: seq<Row>, updateExisting: bool, flushFails: nat -> bool): Tally {
    if rows == [] then Tally(clients, Remaining(cap, |clients|), 0, 0, 0)
    else
      var n := |rows| - 1;
      ImportRow(Import(clients, cap, rows[..n], updateExisting, flushFails), rows[n], updateExisting, flushFails(n))
  }

  function Strays(clients: seq<Client>, cap: Option<int>, rows: seq<Row>, updateExisting: bool, flushFails: nat -> bool): nat {
    if rows == [] then 0
    else
      var n := |rows| - 1;
      var before := Import(clients, cap, rows[..n], updateExisting, flushFails);
      Strays(clients, cap, rows[..n], updateExisting, flushFails) + if Stray(before, rows[n], updateExisting) then 1 else 0
  }

  // What the counters say after any rows, whichever of them fail.
  lemma {:induction false} ImportBooks(clients: seq<Client>, cap: Option<int>, rows: seq<Row>, updateExisting: bool, flushFails: nat -> bool)
    ensures var t := Import(clients, cap, rows, updateExisting, flushFails);
            var strays := Strays(clients, cap, rows, updateExisting, flushFails);
            && t.created == |t.clients| - |clients| - strays
            && t.created + t.updated + t.failed == |rows| - strays
            && t.updated >= 0 && t.failed >= 0 && |t.clients| >= |clients|
            && (cap.None? ==> t.seatsLeft.None?)
            && (cap.Some? ==> t.seatsLeft.Some? && t.seatsLeft.value >= 0 &&
                              t.seatsLeft.value == Max(0, cap.value - |clients|) - (|t.clients| - |clients|) + strays)
  {
    if rows != [] {
      ImportBooks(clients, cap, rows[..|rows| - 1], updateExisting, flushFails);
    }
  }

  // The importer's promises: the budget is always a fresh recount, every row is
  // counted once, and the cap holds unless the firm was over it already.
  predicate BooksRight(clients: seq<Client>, cap: Option<int>, rows: seq<Row>, t: Tally) {
    && t.seatsLeft == Remaining(cap, |t.clients|)
    && t.created == |t.clients| - |clients|
    && t.created + t.updated + t.failed == |rows|
    && (cap.Some? ==> |t.clients| <= Max(cap.value, |clients|))
  }

  // They hold exactly when the import meets no stray row.
  lemma BooksAreRightExactly(clients: seq<Client>, cap: Option<int>, rows: seq<Row>, updateExisting: bool, flushFails: nat -> bool)
    ensures BooksRight(clients, cap, rows, Import(clients, cap, rows, updateExisting, flushFails))
            <==> Strays(clients, cap, rows, updateExisting, flushFails) == 0
  {
    ImportBooks(clients, cap, rows, updateExisting, flushFails);
  }

  // What a firm can see in the sheet: no row that gets past the first checks has the column.
  predicate Harmless(rows: seq<Row>) {
    forall i :: 0 <= i < |rows| ==> !Proper(rows[i]) || !rows[i].hasCreatedBy
  }

  lemma {:induction false} HarmlessSheetHasNoStrays(clients: seq<Client>, cap: Option<int>, rows: seq<Row>, updateExisting: bool, flushFails: nat -> bool)
    requires Harmless(rows)
    ensures Strays(clients, cap, rows, updateExisting, flushFails) == 0
    ensures BooksRight(clients, cap, rows, Import(clients, cap, rows, updateExisting, flushFails))
  {
    if rows != [] {
      HarmlessSheetHasNoStrays(clients, cap, rows[..|rows| - 1], updateExisting, flushFails);
    }
    ImportBooks(clients, cap, rows, updateExisting, flushFails);
  }

  // With unlimited seats and no updating, any other row strays.
  lemma {:induction false} HarmfulRowStrays(clients: seq<Client>, rows: seq<Row>, flushFails: nat -> bool, i: nat)
    requires i < |rows| && !Rejected(rows[i]) && rows[i].hasCreatedBy
    ensures Strays(clients, None, rows, false, flushFails) > 0
  {
    var n := |rows| - 1;
    if i < n {
      HarmfulRowStrays(clients, rows[..n], flushFails, i);
    } else {
      ImportBooks(clients, None, rows[..n], false, flushFails);
    }
  }

  // A sheet keeps the books right for every firm, cap and pattern of failures exactly
  // when it is harmless.
  lemma HarmlessSheetsExactly(rows: seq<Row>)
    ensures (forall clients, cap, updateExisting, flushFails ::
               BooksRight(clients, cap, rows, Import(clients, cap, rows, updateExisting, flushFails)))
            <==> Harmless(rows)
  {
    if Harmless(rows) {
      forall clients, cap, updateExisting, flushFails
        ensures BooksRight(clients, cap, rows, Import(clients, cap, rows, updateExisting, flushFails))
      {
        HarmlessSheetHasNoStrays(clients, cap, rows, updateExisting, flushFails);
      }
    } else {
      var i :| 0 <= i < |rows| && Proper(rows[i]) && rows[i].hasCreatedBy;
      var never := (n: nat) => false;
      HarmfulRowStrays([], rows, never, i);
      BooksAreRightExactly([], None, rows, false, never);
    }
  }

  lemma {:induction false} ImportDependsOnValues(clients: seq<Client>, cap: Option<int>, rows: seq<Row>, updateExisting: bool,
                                                 f: nat -> bool, g: nat -> bool)
    requires forall n :: f(n) == g(n)
    ensures Import(clients, cap, rows, updateExisting, f) == Import(clients, cap, rows, updateExisting, g)
  {
    if rows != [] {
      ImportDependsOnValues(clients, cap, rows[..|rows| - 1], updateExisting, f, g);
    }
  }

  // A stray row frees a seat that is not there: one client more than the cap.
  lemma StrayRowBreaksTheCap()
    ensures var rows := [Row("", "A", "A", None, true), Row("", "B", "B", None, false), Row("", "C", "C", None, false)];
            var t := Import([], Some(1), rows, true, n => false);
            |t.clients| == 2 && t.created == 1 && t.failed == 1
  {
    var a, b, c := Row("", "A", "A", None, true), Row("", "B", "B", None, false), Row("", "C", "C", None, false);
    var never := (n: nat) => false;
    var t0 := Import([], Some(1), [], true, never);
    var t1 := ImportRow(t0, a, true, false);
    assert t1.seatsLeft == Some(2);
    var t2 := ImportRow(t1, b, true, false);
    assert t2.clients == [Client("", "B")];
    var t3 := ImportRow(t2, c, true, false);
    assert t3.clients == [Client("", "B"), Client("", "C")];
    assert [a][..0] == [] && [a, b][..1] == [a] && [a, b, c][..2] == [a, b];
    assert Import([], Some(1), [a], true, never) == t1;
    assert Import([], Some(1), [a, b], true, never) == t2;
    assert Import([], Some(1), [a, b, c], true, never) == t3;
    assert Import([], Some(1), [a, b, c], true, n => false) == t3 by {
      ImportDependsOnValues([], Some(1), [a, b, c], true, never, n => false);
    }
  }

  // One row: the changes inside its savepoint, taken back with the counters when it breaks.
  method CommitRow(before: Tally, row: Row, updateExisting: bool, flushFails: bool) returns (t: Tally)
    ensures t == ImportRow(before, row, updateExisting, flushFails)
  {
    t := before;
    if Rejected(row) {
      return t.(failed := t.failed + 1);
    }
    var existing := Existing(t.clients, row, updateExisting);
    if existing.None? && NoSeat(t.seatsLeft) {
      return t.(failed := t.failed + 1);
    }
    var broken := flushFails;
    if existing.Some? {
      t := t.(clients := t.clients[existing.value := Updated(t.clients[existing.value], row)], updated := t.updated + 1);
    } else if row.hasCreatedBy {
      broken := true;
    } else {
      t := t.(clients := t.clients + [Client(row.code, row.legalName)],
              created := t.created + 1, seatsLeft := Shift(t.seatsLeft, -1));
    }
    if broken {
      t := t.(clients := before.clients, failed := t.failed + 1);
      if existing.Some? {
        t := t.(updated := t.updated - 1);
      } else {
        t := t.(created := t.created - 1, seatsLeft := Shift(t.seatsLeft, 1));
      }
    }
  }

  method CommitClients(clients: seq<Client>, cap: Option<int>, rows: seq<Row>, updateExisting: bool, flushFails: nat -> bool)
    returns (t: Tally)
    ensures t == Import(clients, cap, rows, updateExisting, flushFails)
    ensures Harmless(rows) ==> BooksRight(clients, cap, rows, t)
  {
    t := Tally(clients, Remaining(cap, |clients|), 0, 0, 0);
    for n := 0 to |rows|
      invariant t == Import(clients, cap, rows[..n], updateExisting, flushFails)
    {
      assert rows[..n + 1][..n] == rows[..n];
      t := CommitRow(t, rows[n], updateExisting, flushFails(n));
    }
    assert rows[..|rows|] == rows;
    if Harmless(rows) {
      HarmlessSheetHasNoStrays(clients, cap, rows, updateExisting, flushFails);
    }
  }

  // --- users --------------------------------------------------------------

  // `portals` counts the client logins made, `turnedAway` the rows refused for want of
  // a seat, `broken` the rows whose account could not be provisioned.
  datatype StaffTally = StaffTally(staff: nat, seatsLeft: Option<int>, portals: nat, turnedAway: nat, broken: nat)

  // Portal logins draw on no seat.
  function ImportUser(t: StaffTally, portal: bool, fails: bool): StaffTally {
    if !portal && NoSeat(t.seatsLeft) then t.(turnedAway := t.turnedAway + 1)
    else if fails then t.(broken := t.broken + 1)
    else if portal then t.(portals := t.portals + 1)
    else t.(staff := t.staff + 1, seatsLeft := Shift(t.seatsLeft, -1))
  }

  function ImportUsers(staff: nat, cap: Option<int>, portal: seq<bool>, fails: nat -> bool): StaffTally {
    if portal == [] then StaffTally(staff, Remaining(cap, staff), 0, 0, 0)
    else
      var n := |portal| - 1;
      ImportUser(ImportUsers(staff, cap, portal[..n], fails), portal[n], fails(n))
  }

  // These counters move only after a row has been provisioned, so with no condition at
  // all the budget is a fresh recount, the cap holds, and only a full cap turns anyone away.
  lemma {:induction false} StaffBooksAreRight(staff: nat, cap: Option<int>, portal: seq<bool>, fails: nat -> bool)
    ensures var t := ImportUsers(staff, cap, portal, fails);
            && t.seatsLeft == Remaining(cap, t.staff)
            && staff <= t.staff && (cap.Some? ==> t.staff <= Max(cap.value, staff))
            && (t.turnedAway > 0 ==> cap.Some? && t.staff >= cap.value)
            && t.staff - staff + t.portals + t.turnedAway + t.broken == |portal|
  {
    if portal != [] {
      StaffBooksAreRight(staff, cap, portal[..|portal| - 1], fails);
    }
  }

  method CommitUsers(staff: nat, cap: Option<int>, portal: seq<bool>, fails: nat -> bool)
    returns (created: nat, failed: nat, seatsLeft: Option<int>)
    ensures var t := ImportUsers(staff, cap, portal, fails);
            created == t.staff - staff + t.portals && failed == t.turnedAway + t.broken && seatsLeft == t.seatsLeft
    ensures created + failed == |portal|
  {
    created, failed, seatsLeft := 0, 0, Remaining(cap, staff);
    for n := 0 to |portal|
      invariant var t := ImportUsers(staff, cap, portal[..n], fails);
                created == t.staff - staff + t.portals && failed == t.turnedAway + t.broken && seatsLeft == t.seatsLeft
    {
      assert portal[..n + 1][..n] == portal[..n];
      if !portal[n] && NoSeat(seatsLeft) {
        failed := failed + 1;
        continue;
      }
      if fails(n) {
        failed := failed + 1;
        continue;
      }
      created := created + 1;
      if !portal[n] {
        seatsLeft := Shift(seatsLeft, -1);
      }
    }
    assert portal[..|portal|] == portal;
    StaffBooksAreRight(staff, cap, portal, fails);
  }
}
