/**
 What each request does to an invoice (backend/app/routers/firm_invoices.py), field
 by field: when it is accepted, what it sets, and everything it leaves alone.
 */
module LedgerActions {
  import opened Common
  import opened Ledger

  // Amounts are the rounded products, and the totals their sum and its rounded tax.
  ghost predicate PricedAs(item: Item, input: ItemInput) {
    item.quantity == input.quantity && item.unitPrice == input.unitPrice &&
    RoundsTo(input.quantity * input.unitPrice, 100, item.amount)
  }

  ghost predicate ItemsAre(items: seq<Item>, inputs: seq<ItemInput>) {
    |items| == |inputs| && forall k :: 0 <= k < |items| ==> PricedAs(items[k], inputs[k])
  }

  ghost predicate TotalsFit(i: Invoice) {
    && i.subtotal == Subtotal(i.items)
    && RoundsTo(i.subtotal * i.taxRate, 10_000, i.taxAmount)
    && i.total == i.subtotal + i.taxAmount
  }

  lemma SubtotalIs(items: seq<Item>, item: Item)
    ensures Subtotal([]) == 0 && Subtotal(items + [item]) == Subtotal(items) + item.amount
  {
    assert (items + [item])[..|items|] == items;
  }

  lemma PricedAllIs(inputs: seq<ItemInput>)
    ensures ItemsAre(PricedAll(inputs), inputs)
  {
    forall k | 0 <= k < |inputs|
      ensures PricedAs(PricedAll(inputs)[k], inputs[k])
    {
      RoundMeetsDefinition(inputs[k].quantity * inputs[k].unitPrice, 100);
    }
  }

  lemma RetotalledFits(i: Invoice)
    ensures TotalsFit(Retotalled(i))
  {
    RoundMeetsDefinition(Subtotal(i.items) * i.taxRate, 10_000);
  }

  lemma NoTax(rate: int)
    ensures RoundsTo(0 * rate, 10_000, 0)
  {
  }

  // --- creating -------------------------------------------------------------

  lemma CreatedAsGiven(clientId: nat, inputs: seq<ItemInput>, taxRate: int, dueOn: Day, recipient: Option<string>)
    ensures var i := Created(clientId, inputs, taxRate, dueOn, recipient);
            && i.clientId == clientId && i.taxRate == taxRate && i.dueOn == dueOn && i.recipient == recipient
            && ItemsAre(i.items, inputs) && TotalsFit(i)
            && i.status == Draft && i.paidOn == None && i.payments == [] && i.amountPaid == 0
  {
    PricedAllIs(inputs);
    NoTax(taxRate);
    if inputs != [] {
      RetotalledFits(Created(clientId, inputs, taxRate, dueOn, recipient));
    }
  }

  // A duplicate is for the same client and recipient at the same rate, due in thirty days.
  lemma DuplicatedAsGiven(i: Invoice, today: Day)
    ensures var j := Duplicate(i, today);
            && j.clientId == i.clientId && j.taxRate == i.taxRate && j.dueOn == today + 30 && j.recipient == i.recipient
            && |j.items| == |i.items|
            && (forall k :: 0 <= k < |i.items| ==>
                  PricedAs(j.items[k], ItemInput(i.items[k].quantity, i.items[k].unitPrice)))
            && j.status == Draft && j.paidOn == None && j.payments == [] && j.amountPaid == 0
  {
    CreatedAsGiven(i.clientId, Inputs(i.items), i.taxRate, today + 30, i.recipient);
    forall k | 0 <= k < |i.items|
      ensures PricedAs(Duplicate(i, today).items[k], ItemInput(i.items[k].quantity, i.items[k].unitPrice))
    {
      assert PricedAs(Duplicate(i, today).items[k], Inputs(i.items)[k]);
    }
  }

  // --- editing and sending --------------------------------------------------

  // The value given, or else the one there was.
  function Or<T>(given: Option<T>, otherwise: T): T {
    if given.Some? then given.value else otherwise
  }

  ghost predicate SamePayments(i: Invoice, j: Invoice) {
    j.payments == i.payments && j.amountPaid == i.amountPaid && j.paidOn == i.paidOn
  }

  ghost predicate SamePrice(i: Invoice, j: Invoice) {
    && j.items == i.items && j.taxRate == i.taxRate
    && j.subtotal == i.subtotal && j.taxAmount == i.taxAmount && j.total == i.total
  }

  lemma EditTakesEffect(i: Invoice, e: Edit)
    ensures Do(i, Update(e)).Ok? <==> i.status !in {Paid, Void}
    ensures Do(i, Update(e)).Ok? ==>
              var j := Do(i, Update(e)).value;
              && j.taxRate == Or(e.taxRate, i.taxRate) && j.dueOn == Or(e.dueOn, i.dueOn)
              && j.recipient == Or(e.recipient, i.recipient)
              && (if e.items.Some? then ItemsAre(j.items, e.items.value) else j.items == i.items)
              && TotalsFit(j)
              && j.clientId == i.clientId && j.status == i.status && SamePayments(i, j)
  {
    if Do(i, Update(e)).Ok? {
      RetotalledFits(Edited(i, e));
      if e.items.Some? {
        PricedAllIs(e.items.value);
      }
    }
  }

  lemma SendTakesEffect(i: Invoice, to: Option<string>)
    ensures Do(i, Send(to)).Ok? <==>
              i.status !in {Paid, Void} && i.items != [] && (to.Some? || i.recipient.Some?)
    ensures Do(i, Send(to)).Ok? ==>
              var j := Do(i, Send(to)).value;
              && j.status == Sent && j.recipient == (if to.Some? then to else i.recipient)
              && j.clientId == i.clientId && j.dueOn == i.dueOn && SamePrice(i, j) && SamePayments(i, j)
  {
  }

  lemma VoidTakesEffect(i: Invoice)
    ensures Do(i, MakeVoid).Ok? <==> i.status != Paid
    ensures Do(i, MakeVoid).Ok? ==>
              var j := Do(i, MakeVoid).value;
              && j.status == Void && j.recipient == i.recipient
              && j.clientId == i.clientId && j.dueOn == i.dueOn && SamePrice(i, j) && SamePayments(i, j)
  {
  }

  // --- payments ---------------------------------------------------------------

  // Paid exactly when a positive total is covered; an invoice no longer covered is sent again.
  ghost predicate Settled(i: Invoice, j: Invoice) {
    && j.status == (if j.amountPaid >= i.total > 0 then Paid else if i.status == Paid then Sent else i.status)
    && j.clientId == i.clientId && j.dueOn == i.dueOn && j.recipient == i.recipient && SamePrice(i, j)
  }

  lemma SumPaidIs(payments: seq<Payment>, payment: Payment)
    ensures SumPaid([]) == 0 && SumPaid(payments + [payment]) == SumPaid(payments) + payment.amount
  {
    assert (payments + [payment])[..|payments|] == payments;
  }

  lemma PayTakesEffect(i: Invoice, payment: Payment)
    requires Valid(i)
    ensures Do(i, Pay(payment)).Ok? <==> i.status !in {Draft, Void}
    ensures Do(i, Pay(payment)).Ok? ==>
              var j := Do(i, Pay(payment)).value;
              && j.payments == i.payments + [payment] && j.amountPaid == i.amountPaid + payment.amount
              && Settled(i, j)
              && (j.status == Paid ==> j.paidOn.Some? && LatestPayment(j.payments, j.paidOn.value))
              && (j.status != Paid ==> j.paidOn == None)
  {
    SumPaidIs(i.payments, payment);
    LastPaidIsLatest(i.payments + [payment]);
  }

  lemma {:induction false} SumPaidAdds(a: seq<Payment>, b: seq<Payment>)
    ensures SumPaid(a + b) == SumPaid(a) + SumPaid(b)
  {
    if b == [] {
      assert a + b == a;
    } else {
      var front, last := b[..|b| - 1], b[|b| - 1];
      SumPaidAdds(a, front);
      SumPaidIs(a + front, last);
      assert a + b == (a + front) + [last];
    }
  }

  lemma {:induction false} FirstWith(payments: seq<Payment>, id: PaymentId) returns (k: nat)
    requires HasPayment(payments, id)
    ensures k < |payments| && payments[k].id == id && (forall j :: 0 <= j < k ==> payments[j].id != id)
  {
    k := 0;
    if payments[0].id != id {
      var l :| 0 <= l < |payments| && payments[l].id == id;
      assert payments[1..][l - 1].id == id;
      var m := FirstWith(payments[1..], id);
      k := m + 1;
      forall j | 0 <= j < k
        ensures payments[j].id != id
      {
        assert j > 0 ==> payments[j] == payments[1..][j - 1];
      }
    }
  }

  // The first payment with that id goes, and the others stay in order.
  lemma FirstIsTakenOut(payments: seq<Payment>, id: PaymentId) returns (k: nat)
    requires HasPayment(payments, id)
    ensures k < |payments| && payments[k].id == id && (forall j :: 0 <= j < k ==> payments[j].id != id)
    ensures WithoutPayment(payments, id) == payments[..k] + payments[k + 1..]
    ensures SumPaid(payments) == SumPaid(WithoutPayment(payments, id)) + payments[k].amount
  {
    k := FirstWith(payments, id);
    FirstMatch(payments, id, k);
    SumPaidAdds(payments[..k], payments[k + 1..]);
    SumPaidIs(payments[..k], payments[k]);
    SumPaidAdds(payments[..k] + [payments[k]], payments[k + 1..]);
    assert payments == (payments[..k] + [payments[k]]) + payments[k + 1..];
  }

  lemma UnpaidSettles(i: Invoice, id: PaymentId, today: Day)
    requires Valid(i) && HasPayment(i.payments, id)
    ensures var j := Do(i, Unpay(id, today)).value;
            && j.payments == WithoutPayment(i.payments, id) && j.amountPaid == SumPaid(j.payments)
            && Settled(i, j) && (j.paidOn.Some? <==> j.status == Paid)
  {
    UnpayIsValid(i, id, today);
  }

  lemma UnpayTakesEffect(i: Invoice, id: PaymentId, today: Day) returns (k: nat)
    requires Valid(i)
    ensures Do(i, Unpay(id, today)).Ok? <==> exists p :: p in i.payments && p.id == id
    ensures Do(i, Unpay(id, today)).Ok? ==>
              && k < |i.payments| && i.payments[k].id == id && (forall j :: 0 <= j < k ==> i.payments[j].id != id)
              && var j := Do(i, Unpay(id, today)).value;
                 && j.payments == i.payments[..k] + i.payments[k + 1..]
                 && j.amountPaid == i.amountPaid - i.payments[k].amount
                 && Settled(i, j) && (j.paidOn.Some? <==> j.status == Paid)
  {
    k := 0;
    if HasPayment(i.payments, id) {
      var l :| 0 <= l < |i.payments| && i.payments[l].id == id;
      assert i.payments[l] in i.payments;
      k := FirstIsTakenOut(i.payments, id);
      UnpaidSettles(i, id, today);
    }
  }
}
