/**
 The invoice router in its own form: handlers that assign the fields of one
 invoice row and rebuild its item list. Each is proved to do what the ledger
 model does, so `Valid` is an invariant of these objects.
 */
module InvoiceRouter {
  import opened Common
  import L = Ledger

  class FirmInvoice {
    const clientId: nat
    var items: seq<L.Item>
    var taxRate: int
    var subtotal: int
    var taxAmount: int
    var total: int
    var amountPaid: int
    var status: L.Status
    var paidOn: Option<L.Day>
    var dueOn: L.Day
    var recipient: Option<string>
    var payments: seq<L.Payment>

    ghost function State(): L.Invoice
      reads this
    {
      L.Invoice(clientId, items, taxRate, subtotal, taxAmount, total, amountPaid, status, paidOn, dueOn, recipient, payments)
    }

    constructor (clientId: nat, inputs: seq<L.ItemInput>, taxRate: int, dueOn: L.Day, recipient: Option<string>)
      ensures State() == L.Created(clientId, inputs, taxRate, dueOn, recipient)
    {
      this.clientId, this.taxRate, this.dueOn, this.recipient := clientId, taxRate, dueOn, recipient;
      items, payments := [], [];
      subtotal, taxAmount, total, amountPaid := 0, 0, 0, 0;
      status, paidOn := L.Draft, None;
      new;
      if inputs != [] {
        ReplaceItems(inputs);
      }
    }

    // _totals, stored on the row.
    method Retotal()
      modifies this`subtotal, this`taxAmount, this`total
      ensures State() == L.Retotalled(old(State()))
    {
      var sum := 0;
      for k := 0 to |items|
        invariant sum == L.Subtotal(items[..k])
      {
        assert items[..k + 1][..k] == items[..k];
        sum := sum + items[k].amount;
      }
      assert items[..|items|] == items;
      subtotal := sum;
      taxAmount := L.Round(subtotal * taxRate, 10_000);
      total := subtotal + taxAmount;
    }

    method ReplaceItems(inputs: seq<L.ItemInput>)
      modifies this`items, this`subtotal, this`taxAmount, this`total
      ensures State() == L.Retotalled(old(State()).(items := L.PricedAll(inputs)))
    {
      items := [];
      for k := 0 to |inputs|
        invariant |items| == k
        invariant forall j :: 0 <= j < k ==> items[j] == L.Priced(inputs[j])
        invariant State() == old(State()).(items := items)
      {
        var amount := L.Round(inputs[k].quantity * inputs[k].unitPrice, 100);
        items := items + [L.Item(inputs[k].quantity, inputs[k].unitPrice, amount)];
      }
      assert items == L.PricedAll(inputs);
      Retotal();
    }

    method ApplyPaymentState(today: L.Day)
      modifies this`amountPaid, this`status, this`paidOn
      ensures State() == L.ApplyPaymentState(old(State()), today)
    {
      var paid, latest := 0, today;
      for k := 0 to |payments|
        invariant paid == L.SumPaid(payments[..k])
        invariant latest == if k == 0 then today else L.LastPaid(payments[..k])
      {
        assert payments[..k + 1][..k] == payments[..k];
        paid := paid + payments[k].amount;
        latest := if k == 0 || payments[k].paidOn > latest then payments[k].paidOn else latest;
      }
      assert payments[..|payments|] == payments;
      amountPaid := paid;
      if amountPaid >= total && total > 0 {
        status := L.Paid;
        paidOn := Some(latest);
      } else if status == L.Paid {
        status := L.Sent;
        paidOn := None;
      }
    }

    method UpdateInvoice(edit: L.Edit) returns (e: Option<L.Refused>)
      modifies this
      ensures match L.Do(old(State()), L.Update(edit))
              case Ok(i) => e == None && State() == i
              case Err(refused) => e == Some(refused) && State() == old(State())
    {
      if status in {L.Paid, L.Void} {
        return Some(L.CannotEdit);
      }
      if edit.taxRate.Some? { taxRate := edit.taxRate.value; }
      if edit.dueOn.Some? { dueOn := edit.dueOn.value; }
      if edit.recipient.Some? { recipient := edit.recipient.value; }
      if edit.items.Some? {
        ReplaceItems(edit.items.value);
      } else {
        Retotal();
      }
      return None;
    }

    method SendInvoice(to: Option<string>) returns (e: Option<L.Refused>)
      modifies this
      ensures match L.Do(old(State()), L.Send(to))
              case Ok(i) => e == None && State() == i
              case Err(refused) => e == Some(refused) && State() == old(State())
    {
      if status in {L.Paid, L.Void} {
        return Some(L.CannotSend);
      }
      if items == [] {
        return Some(L.NoItems);
      }
      if to.Some? {
        recipient := to;
      }
      if recipient.None? {
        return Some(L.NoRecipient);
      }
      status := L.Sent;
      return None;
    }

    method RecordPayment(payment: L.Payment) returns (e: Option<L.Refused>)
      modifies this
      ensures match L.Do(old(State()), L.Pay(payment))
              case Ok(i) => e == None && State() == i
              case Err(refused) => e == Some(refused) && State() == old(State())
    {
      if status in {L.Draft, L.Void} {
        return Some(L.CannotPay);
      }
      payments := payments + [payment];
      ApplyPaymentState(payment.paidOn);
      return None;
    }

    method DeletePayment(id: L.PaymentId, today: L.Day) returns (e: Option<L.Refused>)
      modifies this
      ensures match L.Do(old(State()), L.Unpay(id, today))
              case Ok(i) => e == None && State() == i
              case Err(refused) => e == Some(refused) && State() == old(State())
    {
      var k := 0;
      while k < |payments| && payments[k].id != id
        invariant 0 <= k <= |payments|
        invariant forall j :: 0 <= j < k ==> payments[j].id != id
      {
        k := k + 1;
      }
      if k == |payments| {
        return Some(L.NotFound);
      }
      L.FirstMatch(payments, id, k);
      payments := payments[..k] + payments[k + 1..];
      ApplyPaymentState(today);
      return None;
    }

    method VoidInvoice() returns (e: Option<L.Refused>)
      modifies this
      ensures match L.Do(old(State()), L.MakeVoid)
              case Ok(i) => e == None && State() == i
              case Err(refused) => e == Some(refused) && State() == old(State())
    {
      if status == L.Paid {
        return Some(L.CannotVoid);
      }
      status := L.Void;
      return None;
    }

    // A fresh draft with the same client, items, rate and recipient, due in thirty days.
    method DuplicateInvoice(today: L.Day) returns (copy: FirmInvoice)
      ensures fresh(copy) && copy.State() == L.Duplicate(State(), today)
    {
      var inputs := [];
      for k := 0 to |items|
        invariant |inputs| == k
        invariant forall j :: 0 <= j < k ==> inputs[j] == L.Inputs(items)[j]
      {
        inputs := inputs + [L.ItemInput(items[k].quantity, items[k].unitPrice)];
      }
      assert inputs == L.Inputs(items);
      copy := new FirmInvoice(clientId, inputs, taxRate, today + 30, recipient);
    }
  }
}
