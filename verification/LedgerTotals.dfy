/**
 The totals of a firm (backend/app/routers/firm_invoices.py) and of its clients'
 portals (backend/app/routers/client_firm_invoices.py), over the same invoices.
 */
module LedgerTotals {
  import opened Ledger

  function EffectiveStatus(i: Invoice, today: Day): Status {
    if i.status == Sent && i.dueOn < today then Overdue else i.status
  }

  datatype Column = Billed | Collected | Outstanding | LateBalance | VoidBalance | Overpayment

  // What one invoice adds to a column of the totals.
  function Share(column: Column, i: Invoice, today: Day): int {
    match column
    case Billed => if i.status != Draft then i.total else 0
    case Collected => if i.status != Draft then i.amountPaid else 0
    case Outstanding => if EffectiveStatus(i, today) == Sent then i.total - i.amountPaid else 0
    case LateBalance => if EffectiveStatus(i, today) == Overdue then i.total - i.amountPaid else 0
    case VoidBalance => if i.status == Void then i.total - i.amountPaid else 0
    case Overpayment => if i.status == Paid then i.amountPaid - i.total else 0
  }

  function FirmTotal(column: Column, rows: seq<Invoice>, today: Day): int {
    if rows == [] then 0 else Share(column, rows[0], today) + FirmTotal(column, rows[1..], today)
  }

  // The portal's query sees one client's invoices that are past draft.
  function PortalRows(rows: seq<Invoice>, clientId: nat): seq<Invoice> {
    if rows == [] then []
    else (if rows[0].clientId == clientId && rows[0].status != Draft then [rows[0]] else []) + PortalRows(rows[1..], clientId)
  }

  function PortalTotal(column: Column, rows: seq<Invoice>, clientId: nat, today: Day): int {
    FirmTotal(column, PortalRows(rows, clientId), today)
  }

  function OverPortals(column: Column, rows: seq<Invoice>, clients: seq<nat>, today: Day): int {
    if clients == [] then 0
    else PortalTotal(column, rows, clients[0], today) + OverPortals(column, rows, clients[1..], today)
  }

  // A sent invoice is owed on time up to its due day and late from the next day on; no
  // other invoice is in either column.
  lemma DueDayDecides(i: Invoice, today: Day)
    ensures Share(Outstanding, i, today) == (if i.status == Sent && today <= i.dueOn then i.total - i.amountPaid else 0)
    ensures i.status != Overdue ==>
              Share(LateBalance, i, today) == (if i.status == Sent && i.dueOn < today then i.total - i.amountPaid else 0)
    ensures Share(Billed, i, today) == (if i.status == Draft then 0 else i.total)
    ensures Share(Collected, i, today) == (if i.status == Draft then 0 else i.amountPaid)
  {
  }

  // The firm's figures are sums over its invoices.
  lemma {:induction false} FirmTotalAdds(column: Column, a: seq<Invoice>, b: seq<Invoice>, today: Day)
    ensures FirmTotal(column, a + b, today) == FirmTotal(column, a, today) + FirmTotal(column, b, today)
  {
    if a == [] {
      assert a + b == b;
    } else {
      assert (a + b)[1..] == a[1..] + b;
      FirmTotalAdds(column, a[1..], b, today);
    }
  }

  // Billed less collected is what is still owed, on time or late, plus what was
  // written off by voiding, less what clients paid too much.
  lemma {:induction false} LedgerBalances(rows: seq<Invoice>, today: Day)
    ensures FirmTotal(Billed, rows, today) - FirmTotal(Collected, rows, today)
            == FirmTotal(Outstanding, rows, today) + FirmTotal(LateBalance, rows, today)
               + FirmTotal(VoidBalance, rows, today) - FirmTotal(Overpayment, rows, today)
    ensures (forall r <- rows :: Valid(r)) ==> FirmTotal(Overpayment, rows, today) >= 0
  {
    if rows != [] {
      LedgerBalances(rows[1..], today);
      assert rows[0] in rows && forall r <- rows[1..] :: r in rows;
    }
  }

  lemma {:induction false} PortalCons(column: Column, row: Invoice, rows: seq<Invoice>, clientId: nat, today: Day)
    ensures PortalTotal(column, [row] + rows, clientId, today) ==
              (if row.clientId == clientId && row.status != Draft then Share(column, row, today) else 0)
              + PortalTotal(column, rows, clientId, today)
  {
    assert ([row] + rows)[1..] == rows;
    if row.clientId == clientId && row.status != Draft {
      assert ([row] + PortalRows(rows, clientId))[1..] == PortalRows(rows, clientId);
    } else {
      assert [] + PortalRows(rows, clientId) == PortalRows(rows, clientId);
    }
  }

  lemma {:induction false} PortalsCons(column: Column, row: Invoice, rows: seq<Invoice>, clients: seq<nat>, today: Day)
    requires forall j, k :: 0 <= j < k < |clients| ==> clients[j] != clients[k]
    ensures OverPortals(column, [row] + rows, clients, today) ==
              (if row.clientId in clients && row.status != Draft then Share(column, row, today) else 0)
              + OverPortals(column, rows, clients, today)
    decreases |clients|
  {
    if clients != [] {
      PortalCons(column, row, rows, clients[0], today);
      PortalsCons(column, row, rows, clients[1..], today);
    }
  }

  lemma NoRowsNoTotal(column: Column, clients: seq<nat>, today: Day)
    ensures OverPortals(column, [], clients, today) == 0
  {
  }

  // Adding up every client's portal gives the firm's own figures.
  lemma {:induction false} PortalsAddUpToFirm(column: Column, rows: seq<Invoice>, clients: seq<nat>, today: Day)
    requires forall j, k :: 0 <= j < k < |clients| ==> clients[j] != clients[k]
    requires forall r <- rows :: r.clientId in clients
    ensures OverPortals(column, rows, clients, today) == FirmTotal(column, rows, today)
    decreases |rows|
  {
    if rows == [] {
      NoRowsNoTotal(column, clients, today);
    } else {
      assert rows == [rows[0]] + rows[1..];
      PortalsCons(column, rows[0], rows[1..], clients, today);
      PortalsAddUpToFirm(column, rows[1..], clients, today);
    }
  }
}
