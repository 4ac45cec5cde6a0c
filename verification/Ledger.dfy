/**
 Firm invoices (backend/app/routers/firm_invoices.py): line items, tax rounding,
 payments and the lifecycle. Money is in cents, quantities in hundredths, the tax
 rate in hundredths of a percent; rounding is exact, half to even.
 */
module Ledger {
  import opened Common

  // --- rounding -----------------------------------------------------------

  // Numerator over denominator, to the nearest integer, ties to even.
  function Round(num: int, den: int): int
    requires den > 0
  {
    var q, r := num / den, num % den;
    if 2 * r < den || (2 * r == den && q % 2 == 0) then q else q + 1
  }

  // The definition of rounding half to even, independent of how it is computed.
  predicate RoundsTo(num: int, den: int, n: int) {
    var twiceError := 2 * (den * n - num);
    -den <= twiceError <= den && (twiceError == den || twiceError == -den ==> n % 2 == 0)
  }

  lemma RoundMeetsDefinition(num: int, den: int)
    requires den > 0
    ensures RoundsTo(num, den, Round(num, den))
  {
    var q, r := num / den, num % den;
    assert num == q * den + r;
    assert den * (q + 1) == q * den + den;
  }

  lemma CancelFactor(den: int, gap: int)
    requires den > 0 && -den <= den * gap <= den
    ensures -1 <= gap <= 1
  {
    assert gap >= 2 ==> den * gap >= den * 2;
    assert gap <= -2 ==> den * gap <= den * -2;
  }

  lemma RoundingIsUnique(num: int, den: int, m: int, n: int)
    requires den > 0 && RoundsTo(num, den, m) && RoundsTo(num, den, n)
    ensures m == n
  {
    assert den * n == den * m + den * (n - m);
    CancelFactor(den, n - m);
  }

  // --- items and totals ---------------------------------------------------

  datatype ItemInput = ItemInput(quantity: int, unitPrice: int)

  datatype Item = Item(quantity: int, unitPrice: int, amount: int)

  function Priced(input: ItemInput): Item {
    Item(input.quantity, input.unitPrice, Round(input.quantity * input.unitPrice, 100))
  }

  function PricedAll(inputs: seq<ItemInput>): (items: seq<Item>)
    ensures |items| == |inputs| && forall i :: 0 <= i < |items| ==> items[i] == Priced(inputs[i])
  {
    seq(|inputs|, i requires 0 <= i < |inputs| => Priced(inputs[i]))
  }

  function Subtotal(items: seq<Item>): int {
    if items == [] then 0 else Subtotal(items[..|items| - 1]) + items[|items| - 1].amount
  }

  function Tax(subtotal: int, rate: int): int {
    Round(subtotal * rate, 10_000)
  }

  // The exact price of the items, in hundredths of a cent.
  function Exact(items: seq<Item>): int {
    if items == [] then 0
    else Exact(items[..|items| - 1]) + items[|items| - 1].quantity * items[|items| - 1].unitPrice
  }

  predicate ItemsPriced(items: seq<Item>) {
    forall i :: 0 <= i < |items| ==> items[i] == Priced(ItemInput(items[i].quantity, items[i].unitPrice))
  }

  function Abs(x: int): nat {
    if x < 0 then -x else x
  }

  // Each line is off by at most half a cent.
  lemma {:induction false} SubtotalIsClose(items: seq<Item>)
    requires ItemsPriced(items)
    ensures Abs(100 * Subtotal(items) - Exact(items)) <= 50 * |items|
  {
    if items != [] {
      var last := items[|items| - 1];
      SubtotalIsClose(items[..|items| - 1]);
      RoundMeetsDefinition(last.quantity * last.unitPrice, 100);
    }
  }

  lemma SplitError(rate: int, subtotal: int, tax: int, exact: int)
    ensures 1_000_000 * (subtotal + tax) - (10_000 + rate) * exact
            == (10_000 + rate) * (100 * subtotal - exact) + 100 * (10_000 * tax - subtotal * rate)
  {
    assert (10_000 + rate) * (100 * subtotal - exact) == (10_000 + rate) * (100 * subtotal) - (10_000 + rate) * exact;
    assert (10_000 + rate) * (100 * subtotal) == 1_000_000 * subtotal + 100 * (subtotal * rate);
  }

  lemma ScaledBound(scale: nat, x: int, bound: nat)
    requires Abs(x) <= bound
    ensures Abs(scale * x) <= scale * bound
  {
    assert scale * (bound - x) >= 0 && scale * (bound + x) >= 0;
    assert scale * (bound - x) == scale * bound - scale * x;
    assert scale * (bound + x) == scale * bound + scale * x;
  }

  // The invoice total is within (1 + r/100) * n/2 + 1/2 cents of the exact
  // (1 + r/100) times the sum of quantity times price. Both sides are scaled by
  // 10 000 for the rate and by 100 for the exact price.
  lemma TotalIsClose(items: seq<Item>, rate: nat)
    requires ItemsPriced(items)
    ensures var total := Subtotal(items) + Tax(Subtotal(items), rate);
            Abs(1_000_000 * total - (10_000 + rate) * Exact(items)) <= (10_000 + rate) * (50 * |items|) + 500_000
  {
    var subtotal, exact := Subtotal(items), Exact(items);
    var tax := Tax(subtotal, rate);
    SubtotalIsClose(items);
    RoundMeetsDefinition(subtotal * rate, 10_000);
    SplitError(rate, subtotal, tax, exact);
    ScaledBound(10_000 + rate, 100 * subtotal - exact, 50 * |items|);
  }

  // --- the invoice --------------------------------------------------------

  type PaymentId = nat

  type Day = int

  datatype Status = Draft | Sent | Paid | Overdue | Void

  datatype Payment = Payment(id: PaymentId, amount: int, paidOn: Day)

  datatype Invoice = Invoice(
    clientId: nat,
    items: seq<Item>,
    taxRate: int,
    subtotal: int,
    taxAmount: int,
    total: int,
    amountPaid: int,
    status: Status,
    paidOn: Option<Day>,
    dueOn: Day,
    recipient: Option<string>,
    payments: seq<Payment>)

  datatype Refused = NotFound | CannotEdit | CannotSend | NoItems | NoRecipient | CannotPay | CannotVoid

  function Retotalled(i: Invoice): Invoice {
    var subtotal := Subtotal(i.items);
    var tax := Tax(subtotal, i.taxRate);
    i.(subtotal := subtotal, taxAmount := tax, total := subtotal + tax)
  }

  function Created(clientId: nat, inputs: seq<ItemInput>, taxRate: int, dueOn: Day, recipient: Option<string>): Invoice {
    var blank := Invoice(clientId, [], taxRate, 0, 0, 0, 0, Draft, None, dueOn, recipient, []);
    if inputs == [] then blank else Retotalled(blank.(items := PricedAll(inputs)))
  }

  function SumPaid(payments: seq<Payment>): int {
    if payments == [] then 0 else SumPaid(payments[..|payments| - 1]) + payments[|payments| - 1].amount
  }

  function LastPaid(payments: seq<Payment>): Day
    requires payments != []
  {
    var last := payments[|payments| - 1].paidOn;
    if |payments| == 1 then last else Max(LastPaid(payments[..|payments| - 1]), last)
  }

  function ApplyPaymentState(i: Invoice, today: Day): Invoice {
    var paid := SumPaid(i.payments);
    var j := i.(amountPaid := paid);
    if paid >= i.total && i.total > 0 then
      j.(status := Paid, paidOn := Some(if i.payments == [] then today else LastPaid(i.payments)))
    else if i.status == Paid then
      j.(status := Sent, paidOn := None)
    else
      j
  }

  function WithoutPayment(payments: seq<Payment>, id: PaymentId): seq<Payment> {
    if payments == [] then []
    else if payments[0].id == id then payments[1..]
    else [payments[0]] + WithoutPayment(payments[1..], id)
  }

  predicate HasPayment(payments: seq<Payment>, id: PaymentId) {
    exists k :: 0 <= k < |payments| && payments[k].id == id
  }

  datatype Edit = Edit(items: Option<seq<ItemInput>>, taxRate: Option<int>, dueOn: Option<Day>, recipient: Option<Option<string>>)

  datatype Action =
    | Update(edit: Edit)
    | Send(recipient: Option<string>)
    | Pay(payment: Payment)
    | Unpay(id: PaymentId, today: Day)
    | MakeVoid

  function Edited(i: Invoice, e: Edit): Invoice {
    Retotalled(i.(
      taxRate := if e.taxRate.Some? then e.taxRate.value else i.taxRate,
      dueOn := if e.dueOn.Some? then e.dueOn.value else i.dueOn,
      recipient := if e.recipient.Some? then e.recipient.value else i.recipient,
      items := if e.items.Some? then PricedAll(e.items.value) else i.items))
  }

  function Do(i: Invoice, a: Action): Result<Invoice, Refused> {
    match a
    case Update(edit) =>
      if i.status in {Paid, Void} then Err(CannotEdit) else Ok(Edited(i, edit))
    case Send(recipient) =>
      if i.status in {Paid, Void} then Err(CannotSend)
      else if i.items == [] then Err(NoItems)
      else if recipient.None? && i.recipient.None? then Err(NoRecipient)
      else Ok(i.(status := Sent, recipient := if recipient.Some? then recipient else i.recipient))
    case Pay(payment) =>
      if i.status in {Draft, Void} then Err(CannotPay)
      else Ok(ApplyPaymentState(i.(payments := i.payments + [payment]), payment.paidOn))
    case Unpay(id, today) =>
      if !HasPayment(i.payments, id) then Err(NotFound)
      else Ok(ApplyPaymentState(i.(payments := WithoutPayment(i.payments, id)), today))
    case MakeVoid =>
      if i.status == Paid then Err(CannotVoid) else Ok(i.(status := Void))
  }

  function After(i: Invoice, a: Action): Invoice {
    match Do(i, a)
    case Ok(j) => j
    case Err(_) => i
  }

  function Run(i: Invoice, actions: seq<Action>): Invoice
    decreases |actions|
  {
    if actions == [] then i else Run(After(i, actions[0]), actions[1..])
  }

  // The request schema accepts only positive payments.
  predicate Accepted(a: Action) {
    a.Pay? ==> a.payment.amount > 0
  }

  // --- what every reachable invoice satisfies -------------------------------

  ghost predicate LatestPayment(payments: seq<Payment>, day: Day) {
    && (exists k :: 0 <= k < |payments| && payments[k].paidOn == day)
    && (forall k :: 0 <= k < |payments| ==> payments[k].paidOn <= day)
  }

  ghost predicate Valid(i: Invoice) {
    && ItemsPriced(i.items)
    && i == Retotalled(i)
    && i.amountPaid == SumPaid(i.payments)
    && (forall k :: 0 <= k < |i.payments| ==> i.payments[k].amount > 0)
    && i.status != Overdue
    && (i.status == Paid ==> i.amountPaid >= i.total > 0)
    && (i.paidOn.Some? <==> i.status == Paid)
    && (i.paidOn.Some? ==> LatestPayment(i.payments, i.paidOn.value))
    && (i.status == Draft ==> i.payments == [])
  }

  lemma CreatedIsValid(clientId: nat, inputs: seq<ItemInput>, taxRate: int, dueOn: Day, recipient: Option<string>)
    ensures Valid(Created(clientId, inputs, taxRate, dueOn, recipient))
  {
    assert Tax(0, taxRate) == 0;
  }

  lemma {:induction false} LastPaidIsLatest(payments: seq<Payment>)
    requires payments != []
    ensures LatestPayment(payments, LastPaid(payments))
  {
    var rest, last := payments[..|payments| - 1], payments[|payments| - 1];
    if rest != [] {
      LastPaidIsLatest(rest);
      var k :| 0 <= k < |rest| && rest[k].paidOn == LastPaid(rest);
      assert payments[k].paidOn == LastPaid(rest);
    }
    assert last.paidOn == payments[|payments| - 1].paidOn;
  }

  // After any payment change: paid exactly when the payments cover a positive total.
  lemma PaymentSettles(i: Invoice, today: Day)
    requires ItemsPriced(i.items) && i == Retotalled(i)
    requires forall k :: 0 <= k < |i.payments| ==> i.payments[k].amount > 0
    requires i.status !in {Draft, Overdue} && (i.status != Paid ==> i.paidOn.None?)
    ensures var j := ApplyPaymentState(i, today);
            Valid(j) && (j.status == Paid <==> j.amountPaid >= j.total > 0) && j.payments == i.payments
  {
    if i.payments != [] {
      LastPaidIsLatest(i.payments);
    }
  }

  // Deleting a payment takes out exactly one payment, the one with that id.
  lemma {:induction false} WithoutPaymentTakesOne(payments: seq<Payment>, id: PaymentId) returns (gone: Payment)
    requires HasPayment(payments, id)
    ensures gone.id == id && multiset(payments) == multiset(WithoutPayment(payments, id)) + multiset{gone}
  {
    assert payments == [payments[0]] + payments[1..];
    if payments[0].id == id {
      return payments[0];
    }
    var k :| 0 <= k < |payments| && payments[k].id == id;
    assert payments[1..][k - 1].id == id;
    gone := WithoutPaymentTakesOne(payments[1..], id);
  }

  lemma {:induction false} FirstMatch(payments: seq<Payment>, id: PaymentId, k: nat)
    requires k < |payments| && payments[k].id == id && forall j :: 0 <= j < k ==> payments[j].id != id
    ensures WithoutPayment(payments, id) == payments[..k] + payments[k + 1..]
  {
    if k > 0 {
      FirstMatch(payments[1..], id, k - 1);
      assert payments[1..][..k - 1] == payments[1..k] && payments[1..][k..] == payments[k + 1..];
      assert payments[..k] == [payments[0]] + payments[1..k];
    }
  }

  lemma WithoutPaymentIsSubset(payments: seq<Payment>, id: PaymentId)
    ensures forall p <- WithoutPayment(payments, id) :: p in payments
  {
  }

  lemma EditIsValid(i: Invoice, e: Edit)
    requires Valid(i) && i.status !in {Paid, Void}
    ensures Valid(Edited(i, e))
  {
    if e.items.Some? {
      assert ItemsPriced(PricedAll(e.items.value));
    }
  }

  lemma UnpayIsValid(i: Invoice, id: PaymentId, today: Day)
    requires Valid(i) && HasPayment(i.payments, id)
    ensures Valid(ApplyPaymentState(i.(payments := WithoutPayment(i.payments, id)), today))
  {
    var rest := WithoutPayment(i.payments, id);
    WithoutPaymentIsSubset(i.payments, id);
    forall k | 0 <= k < |rest|
      ensures rest[k].amount > 0
    {
      assert rest[k] in i.payments;
    }
    PaymentSettles(i.(payments := rest), today);
  }

  lemma PayIsValid(i: Invoice, payment: Payment)
    requires Valid(i) && i.status !in {Draft, Void} && payment.amount > 0
    ensures Valid(ApplyPaymentState(i.(payments := i.payments + [payment]), payment.paidOn))
  {
    PaymentSettles(i.(payments := i.payments + [payment]), payment.paidOn);
  }

  lemma StepKeepsValid(i: Invoice, a: Action)
    requires Valid(i) && Accepted(a)
    ensures Valid(After(i, a))
  {
    if Do(i, a).Ok? {
      match a
      case Update(edit) => EditIsValid(i, edit);
      case Pay(payment) => PayIsValid(i, payment);
      case Unpay(id, today) => UnpayIsValid(i, id, today);
      case Send(_) =>
      case MakeVoid =>
    }
  }

  lemma {:induction false} EveryReachableInvoiceIsValid(i: Invoice, actions: seq<Action>)
    requires Valid(i) && forall a <- actions :: Accepted(a)
    ensures Valid(Run(i, actions))
    decreases |actions|
  {
    if actions != [] {
      StepKeepsValid(i, actions[0]);
      EveryReachableInvoiceIsValid(After(i, actions[0]), actions[1..]);
    }
  }

  // --- void is not quite final --------------------------------------------

  // One deletion can leave a void invoice with payments that cover a positive total.
  ghost predicate Revivable(i: Invoice) {
    i.total > 0 && exists id :: HasPayment(i.payments, id) && SumPaid(WithoutPayment(i.payments, id)) >= i.total
  }

  lemma {:induction false} SumFront(payments: seq<Payment>)
    requires payments != []
    ensures SumPaid(payments) == payments[0].amount + SumPaid(payments[1..])
  {
    if |payments| > 1 {
      var n := |payments|;
      SumFront(payments[..n - 1]);
      assert payments[..n - 1][1..] == payments[1..][..n - 2];
    }
  }

  lemma {:induction false} SumWithoutPayment(payments: seq<Payment>, id: PaymentId)
    requires HasPayment(payments, id) && forall p <- payments :: p.amount > 0
    ensures SumPaid(WithoutPayment(payments, id)) < SumPaid(payments)
  {
    SumFront(payments);
    var k :| 0 <= k < |payments| && payments[k].id == id;
    if payments[0].id != id {
      assert payments[1..][k - 1].id == id;
      SumWithoutPayment(payments[1..], id);
      var rest := WithoutPayment(payments, id);
      assert rest[1..] == WithoutPayment(payments[1..], id);
      SumFront(rest);
    }
  }

  lemma {:induction false} UnrevivableStaysVoid(i: Invoice, actions: seq<Action>)
    requires Valid(i) && i.status == Void && !Revivable(i) && forall a <- actions :: Accepted(a)
    ensures Run(i, actions).status == Void
    decreases |actions|
  {
    if actions != [] {
      var j := After(i, actions[0]);
      StepKeepsValid(i, actions[0]);
      if actions[0].Unpay? && HasPayment(i.payments, actions[0].id) {
        assert j.status == Void;
        assert j.payments == WithoutPayment(i.payments, actions[0].id);
        forall id | HasPayment(j.payments, id)
          ensures SumPaid(WithoutPayment(j.payments, id)) < SumPaid(j.payments)
        {
          SumWithoutPayment(j.payments, id);
        }
        assert !Revivable(j);
      }
      UnrevivableStaysVoid(j, actions[1..]);
    }
  }

  // Void is final exactly when no single deletion leaves the total covered.
  lemma VoidIsFinalExactly(i: Invoice)
    requires Valid(i) && i.status == Void
    ensures (forall actions :: (forall a <- actions :: Accepted(a)) ==> Run(i, actions).status == Void) <==> !Revivable(i)
  {
    if Revivable(i) {
      var id :| HasPayment(i.payments, id) && SumPaid(WithoutPayment(i.payments, id)) >= i.total;
      var actions := [Unpay(id, 0)];
      assert Run(i, actions) == Run(After(i, Unpay(id, 0)), []);
      assert forall a <- actions :: Accepted(a);
      assert Run(i, actions).status == Paid;
    } else {
      forall actions | forall a <- actions :: Accepted(a)
        ensures Run(i, actions).status == Void
      {
        UnrevivableStaysVoid(i, actions);
      }
    }
  }

  // Such an invoice arises by lowering the price below what was already paid: these are
  // the states of one that is created, sent, paid twice, repriced and voided.
  const DEAR: Item := Item(100, 10_000, 10_000)
  const CHEAP: Item := Item(100, 5_000, 5_000)
  const FIRST: Payment := Payment(1, 6_000, 10)
  const SECOND: Payment := Payment(2, 1_000, 11)
  const REPRICE: Action := Update(Edit(Some([ItemInput(100, 5_000)]), None, None, None))
  const NEW: Invoice := Invoice(1, [DEAR], 0, 10_000, 0, 10_000, 0, Draft, None, 30, Some("client@example.org"), [])
  const BOTH: Invoice := NEW.(status := Sent, payments := [FIRST, SECOND], amountPaid := 7_000)
  const VOIDED: Invoice := BOTH.(items := [CHEAP], subtotal := 5_000, total := 5_000, status := Void)

  lemma PaidSums()
    ensures SumPaid([FIRST]) == 6_000 && SumPaid([FIRST, SECOND]) == 7_000
  {
    assert [FIRST][..0] == [] && [FIRST, SECOND][..1] == [FIRST];
  }

  lemma OneItem(item: Item)
    ensures Subtotal([item]) == item.amount
  {
    assert [item][..0] == [];
  }

  lemma SampleIsCreatedAndPaid()
    ensures Created(1, [ItemInput(100, 10_000)], 0, 30, Some("client@example.org")) == NEW
    ensures After(After(After(NEW, Send(None)), Pay(FIRST)), Pay(SECOND)) == BOTH
  {
    assert PricedAll([ItemInput(100, 10_000)]) == [DEAR];
    OneItem(DEAR);
    assert [] + [FIRST] == [FIRST] && [FIRST] + [SECOND] == [FIRST, SECOND];
    PaidSums();
  }

  lemma SampleIsVoided()
    ensures After(After(BOTH, REPRICE), MakeVoid) == VOIDED
  {
    assert PricedAll([ItemInput(100, 5_000)]) == [CHEAP];
    OneItem(CHEAP);
  }

  lemma {:induction false} RunMore(i: Invoice, actions: seq<Action>, last: Action)
    ensures Run(i, actions + [last]) == After(Run(i, actions), last)
    decreases |actions|
  {
    if actions == [] {
      assert [] + [last] == [last];
      assert Run(After(i, last), [last][1..]) == After(i, last);
    } else {
      assert (actions + [last])[1..] == actions[1..] + [last];
      RunMore(After(i, actions[0]), actions[1..], last);
    }
  }

  lemma RunFive(i: Invoice, a: Action, b: Action, c: Action, d: Action, e: Action)
    ensures Run(i, [a, b, c, d, e]) == After(After(After(After(After(i, a), b), c), d), e)
  {
    assert [a, b, c, d, e] == [] + [a] + [b] + [c] + [d] + [e];
    RunMore(i, [], a);
    RunMore(i, [] + [a], b);
    RunMore(i, [] + [a] + [b], c);
    RunMore(i, [] + [a] + [b] + [c], d);
    RunMore(i, [] + [a] + [b] + [c] + [d], e);
  }

  lemma SampleIsRevived()
    ensures After(VOIDED, Unpay(2, 12)).status == Paid
  {
    assert VOIDED.payments[1].id == 2;
    assert [FIRST, SECOND][1..] == [SECOND] && [SECOND][1..] == [];
    assert WithoutPayment([SECOND], 2) == [];
    assert WithoutPayment([FIRST, SECOND], 2) == [FIRST];
    PaidSums();
  }

  lemma VoidCanBecomePaid()
    ensures var i := Created(1, [ItemInput(100, 10_000)], 0, 30, Some("client@example.org"));
            var paid := [Send(None), Pay(FIRST), Pay(SECOND), REPRICE, MakeVoid];
            Run(i, paid).status == Void && After(Run(i, paid), Unpay(2, 12)).status == Paid
  {
    SampleIsCreatedAndPaid();
    SampleIsVoided();
    RunFive(NEW, Send(None), Pay(FIRST), Pay(SECOND), REPRICE, MakeVoid);
    SampleIsRevived();
  }

  // --- duplicating --------------------------------------------------------

  function Inputs(items: seq<Item>): seq<ItemInput> {
    seq(|items|, k requires 0 <= k < |items| => ItemInput(items[k].quantity, items[k].unitPrice))
  }

  function Duplicate(i: Invoice, today: Day): Invoice {
    Created(i.clientId, Inputs(i.items), i.taxRate, today + 30, i.recipient)
  }

  lemma DuplicateReproducesTotals(i: Invoice, today: Day)
    requires Valid(i)
    ensures var j := Duplicate(i, today);
            && Valid(j) && j.status == Draft && j.payments == [] && j.amountPaid == 0
            && j.items == i.items && j.subtotal == i.subtotal && j.taxAmount == i.taxAmount && j.total == i.total
  {
    var inputs := Inputs(i.items);
    CreatedIsValid(i.clientId, inputs, i.taxRate, today + 30, i.recipient);
    assert PricedAll(inputs) == i.items;
    assert Tax(0, i.taxRate) == 0;
  }
}
