/**
 * Invoices (InvoiceController): the totals computed from the submitted lines, the
 * draft-only guards on `edit`, `update` and `destroy`, the wholesale replacement of
 * the items, and `markPaid`, which records a payment and moves the invoice to
 * `partial` or `paid`. The invoice number comes from a generator that reads the
 * database and the clock; it is passed in.
 */
module Invoices {
  import opened Results
  import opened Calendar
  import opened LineItems

  datatype InvoiceStatus = Draft | Sent | Partial | Paid | Overdue

  /** The columns of an invoice that payments read and write. */
  datatype Balance = Balance(totalAmount: real, paidAmount: real, status: InvoiceStatus, paidAt: Option<Timestamp>)

  /** A row of the payments table. */
  datatype Payment = Payment(
    invoiceId: nat, paymentDate: Date, amount: real, paymentMethod: string,
    referenceNumber: Option<string>, notes: Option<string>)

  datatype InvoiceError = NotDraft | InvalidRequest

  /** One submitted line: `items.*`. */
  datatype ItemLine = ItemLine(description: string, quantity: real, unit: string, unitPrice: real)

  /** The fields `store` and `update` validate. */
  datatype InvoiceRequest = InvoiceRequest(
    customerId: nat, projectId: Option<nat>, quotationId: Option<nat>,
    invoiceDate: Date, dueDate: Date, taxPercentage: real, discountAmount: Option<real>,
    paymentTerms: Option<string>, notes: Option<string>, items: seq<ItemLine>)

  /** The ids the `exists:` rules look up. */
  datatype Directory = Directory(customers: set<nat>, projects: set<nat>, quotations: set<nat>)

  /** `items.*.description|quantity|unit|unit_price`. */
  predicate LineRulesHold(l: ItemLine) {
    |l.description| >= 1 && l.quantity >= 0.01 && |l.unit| >= 1 && l.unitPrice >= 0.0
  }

  /** The validation of `store` and `update`. */
  predicate RequestRulesHold(req: InvoiceRequest, dir: Directory) {
    && req.customerId in dir.customers
    && (req.projectId.Some? ==> req.projectId.value in dir.projects)
    && (req.quotationId.Some? ==> req.quotationId.value in dir.quotations)
    && OnOrAfter(req.dueDate, req.invoiceDate)
    && 0.0 <= req.taxPercentage <= 100.0
    && (req.discountAmount.Some? ==> req.discountAmount.value >= 0.0)
    && |req.items| >= 1
    && (forall i :: 0 <= i < |req.items| ==> LineRulesHold(req.items[i]))
  }

  /** `Σ quantity * unit_price` over the lines, in submission order. */
  function Subtotal(lines: seq<ItemLine>): (s: real)
    ensures (forall i :: 0 <= i < |lines| ==> lines[i].quantity >= 0.0 && lines[i].unitPrice >= 0.0) ==> s >= 0.0
  {
    if lines == [] then 0.0
    else Subtotal(lines[..|lines| - 1]) + LineSubtotal(lines[|lines| - 1].quantity, lines[|lines| - 1].unitPrice)
  }

  /** `($subtotal * $tax_percentage) / 100`: a validated rate takes between none and all of the subtotal. */
  function TaxAmount(subtotal: real, taxPercentage: real): (t: real)
    ensures subtotal >= 0.0 && 0.0 <= taxPercentage <= 100.0 ==> 0.0 <= t <= subtotal
    ensures taxPercentage == 0.0 ==> t == 0.0
  {
    TaxBounds(subtotal, taxPercentage);
    (subtotal * taxPercentage) / 100.0
  }

  lemma TaxBounds(subtotal: real, taxPercentage: real)
    ensures subtotal >= 0.0 && 0.0 <= taxPercentage <= 100.0 ==>
      0.0 <= subtotal * taxPercentage <= subtotal * 100.0
  {
  }

  /** The four amount columns of an invoice. */
  datatype Totals = Totals(subtotal: real, taxAmount: real, discountAmount: real, totalAmount: real)

  /**
   * The totals of `update` (:171-178), which `store` computes the same way. The `store`
   * loop reads `unite_price`, a key no line has; the model reads `unit_price`, as the
   * item creation right below it and the `update` loop do.
   */
  function RequestTotals(req: InvoiceRequest): (t: Totals)
    ensures t.subtotal == Subtotal(req.items)
    ensures t.taxAmount == TaxAmount(t.subtotal, req.taxPercentage)
    ensures t.discountAmount == req.discountAmount.GetOr(0.0)
    ensures t.totalAmount + t.discountAmount == t.subtotal + t.taxAmount
  {
    var subtotal := Subtotal(req.items);
    var taxAmount := TaxAmount(subtotal, req.taxPercentage);
    var discountAmount := req.discountAmount.GetOr(0.0);
    Totals(subtotal, taxAmount, discountAmount, subtotal + taxAmount - discountAmount)
  }

  /**
   * For a request that passes validation the subtotal is not negative, the tax lies
   * between none and all of it, and the total is at most subtotal plus tax.
   */
  lemma ValidRequestTotals(req: InvoiceRequest, dir: Directory)
    requires RequestRulesHold(req, dir)
    ensures var t := RequestTotals(req);
      && t.subtotal >= 0.0
      && 0.0 <= t.taxAmount <= t.subtotal
      && t.discountAmount >= 0.0
      && t.totalAmount <= t.subtotal + t.taxAmount <= 2.0 * t.subtotal
  {
  }

  /**
   * What `store` writes into the amount columns as written: `Invoice::create` is given
   * the subtotal and the tax but neither `discount_amount` nor `total_amount`, which keep
   * their column defaults.
   */
  function StoredTotalsAsWritten(req: InvoiceRequest, discountDefault: real, totalDefault: real): (t: Totals)
    ensures t.subtotal == RequestTotals(req).subtotal && t.taxAmount == RequestTotals(req).taxAmount
    ensures t.discountAmount == discountDefault && t.totalAmount == totalDefault
  {
    var subtotal := Subtotal(req.items);
    Totals(subtotal, TaxAmount(subtotal, req.taxPercentage), discountDefault, totalDefault)
  }

  /** The `foreach` that accumulates `$subtotal`. */
  method SumLines(lines: seq<ItemLine>) returns (s: real)
    ensures s == Subtotal(lines)
  {
    s := 0.0;
    var k := 0;
    while k < |lines|
      invariant 0 <= k <= |lines|
      invariant s == Subtotal(lines[..k])
    {
      assert lines[..k + 1][..k] == lines[..k];
      s := s + lines[k].quantity * lines[k].unitPrice;
      k := k + 1;
    }
    assert lines[..k] == lines;
  }

  /** The sum of the stored items' subtotal columns. */
  function ItemsSubtotal(items: seq<InvoiceItem>): real
    reads items
  {
    if items == [] then 0.0 else ItemsSubtotal(items[..|items| - 1]) + items[|items| - 1].subtotal
  }

  /** Item `i` of the invoice is line `i` of the request, with its subtotal hook applied. */
  ghost predicate ItemsMatch(items: seq<InvoiceItem>, invoiceId: nat, lines: seq<ItemLine>)
    reads items
  {
    && |items| == |lines|
    && forall i :: 0 <= i < |items| ==>
         && items[i].invoiceId == invoiceId
         && items[i].description == lines[i].description
         && items[i].quantity == lines[i].quantity
         && items[i].unit == lines[i].unit
         && items[i].unitPrice == lines[i].unitPrice
         && items[i].Valid()
  }

  /** Stored items that match the lines add up to the lines' subtotal. */
  lemma {:induction false} MatchingItemsSubtotal(items: seq<InvoiceItem>, invoiceId: nat, lines: seq<ItemLine>)
    requires ItemsMatch(items, invoiceId, lines)
    ensures ItemsSubtotal(items) == Subtotal(lines)
  {
    if items != [] {
      var n := |items| - 1;
      assert ItemsMatch(items[..n], invoiceId, lines[..n]);
      MatchingItemsSubtotal(items[..n], invoiceId, lines[..n]);
    }
  }

  /** The header's subtotal is the sum of the stored items' subtotals once they match the lines. */
  lemma HeaderAgreesWithItems(items: seq<InvoiceItem>, invoiceId: nat, req: InvoiceRequest, totals: Totals)
    requires ItemsMatch(items, invoiceId, req.items) && totals == RequestTotals(req)
    ensures ItemsSubtotal(items) == totals.subtotal
  {
    MatchingItemsSubtotal(items, invoiceId, req.items);
  }

  /** The `foreach` that creates one `InvoiceItem` per submitted line. */
  method CreateItems(invoiceId: nat, lines: seq<ItemLine>) returns (items: seq<InvoiceItem>)
    ensures ItemsMatch(items, invoiceId, lines)
    ensures forall i :: 0 <= i < |items| ==> fresh(items[i])
  {
    items := [];
    var k := 0;
    while k < |lines|
      invariant 0 <= k <= |lines|
      invariant ItemsMatch(items, invoiceId, lines[..k])
      invariant forall i :: 0 <= i < |items| ==> fresh(items[i])
    {
      var line := lines[k];
      var item := new InvoiceItem.Create(invoiceId, line.description, line.quantity, line.unit, line.unitPrice,
        line.quantity * line.unitPrice);
      items := items + [item];
      k := k + 1;
    }
    assert lines[..k] == lines;
  }

  /** The sum of the payments' amounts. */
  function PaymentsTotal(ps: seq<Payment>): real {
    if ps == [] then 0.0 else PaymentsTotal(ps[..|ps| - 1]) + ps[|ps| - 1].amount
  }

  lemma {:induction false} PaymentsTotalConcat(a: seq<Payment>, b: seq<Payment>)
    ensures PaymentsTotal(a + b) == PaymentsTotal(a) + PaymentsTotal(b)
  {
    if b == [] {
      assert a + b == a;
    } else {
      var n := |b| - 1;
      assert (a + b)[..|a + b| - 1] == a + b[..n];
      PaymentsTotalConcat(a, b[..n]);
    }
  }

  /** Removing one payment lowers the total by exactly its amount. */
  lemma PaymentsTotalRemove(ps: seq<Payment>, k: nat)
    requires k < |ps|
    ensures PaymentsTotal(ps[..k] + ps[k + 1..]) == PaymentsTotal(ps) - ps[k].amount
  {
    var before, removed, after := ps[..k], [ps[k]], ps[k + 1..];
    assert before + removed == ps[..k + 1];
    assert ps[..k + 1] + after == ps;
    assert PaymentsTotal(removed) == ps[k].amount by {
      assert removed[..0] == [];
    }
    PaymentsTotalConcat(before + removed, after);
    PaymentsTotalConcat(before, removed);
    PaymentsTotalConcat(before, after);
  }

  /**
   * The status a balance may carry: `paid_at` is set exactly when the invoice is paid,
   * a paid invoice is paid in full and a partial one is paid in part.
   */
  predicate Consistent(b: Balance) {
    && (b.paidAt.Some? <==> b.status == Paid)
    && (b.status == Paid ==> b.paidAmount >= b.totalAmount)
    && (b.status == Partial ==> 0.0 < b.paidAmount < b.totalAmount)
  }

  /** The validation of `markPaid`: `amount` in [0.01, remaining_amount] and a payment method. */
  predicate PaymentRulesHold(amount: real, paymentMethod: string, remaining: real) {
    0.01 <= amount <= remaining && |paymentMethod| >= 1
  }

  /** `markPaid`'s own update of the invoice (:251-259). */
  function MarkPaidBalance(b: Balance, amount: real, now: Timestamp): (r: Balance)
    ensures r.totalAmount == b.totalAmount && r.paidAmount == b.paidAmount + amount
    ensures r.status == Paid <==> r.paidAmount >= b.totalAmount
    ensures r.status == Paid ==> r.paidAt == Some(now)
    ensures r.status != Paid ==> r.status == Partial && r.paidAt == b.paidAt
  {
    var paid := b.paidAmount + amount;
    if paid >= b.totalAmount then Balance(b.totalAmount, paid, Paid, Some(now))
    else Balance(b.totalAmount, paid, Partial, b.paidAt)
  }

  /**
   * An accepted payment keeps a consistent balance consistent: the invoice is then paid
   * in full and marked paid, or paid in part and marked partial.
   */
  lemma MarkPaidKeepsConsistent(b: Balance, amount: real, paymentMethod: string, now: Timestamp)
    requires Consistent(b) && b.paidAmount >= 0.0
    requires PaymentRulesHold(amount, paymentMethod, b.totalAmount - b.paidAmount)
    ensures Consistent(MarkPaidBalance(b, amount, now))
    ensures var r := MarkPaidBalance(b, amount, now);
      r.paidAmount <= r.totalAmount && (r.status == Paid <==> r.paidAmount == r.totalAmount)
  {
  }

  /** A fully paid invoice has nothing left to pay, so `markPaid` refuses every amount. */
  lemma PaidInvoiceRefusesPayment(b: Balance, amount: real, paymentMethod: string)
    requires Consistent(b) && b.status == Paid
    ensures !PaymentRulesHold(amount, paymentMethod, b.totalAmount - b.paidAmount)
  {
  }

  class Invoice {
    const id: nat
    var invoiceNumber: string
    var customerId: nat
    var projectId: Option<nat>
    var quotationId: Option<nat>
    var invoiceDate: Date
    var dueDate: Date
    var subtotal: real
    var taxPercentage: real
    var taxAmount: real
    var discountAmount: real
    var totalAmount: real
    var paidAmount: real
    var status: InvoiceStatus
    var paidAt: Option<Timestamp>
    var paymentTerms: Option<string>
    var notes: Option<string>
    var items: seq<InvoiceItem>
    var payments: seq<Payment>
    var deleted: bool

    /** The ledger's invariant: the paid amount is the sum of the recorded payments. */
    ghost predicate Valid()
      reads this
    {
      paidAmount == PaymentsTotal(payments)
    }

    function BalanceColumns(): Balance
      reads this
    {
      Balance(totalAmount, paidAmount, status, paidAt)
    }

    function TotalColumns(): Totals
      reads this
    {
      Totals(subtotal, taxAmount, discountAmount, totalAmount)
    }

    /** `remaining_amount`: what is still to be paid. */
    function RemainingAmount(): (r: real)
      reads this
      ensures r + paidAmount == totalAmount
    {
      totalAmount - paidAmount
    }

    /** The header fields `store` and `update` copy from the request. */
    ghost predicate Describes(req: InvoiceRequest)
      reads this
    {
      && customerId == req.customerId && projectId == req.projectId && quotationId == req.quotationId
      && invoiceDate == req.invoiceDate && dueDate == req.dueDate
      && taxPercentage == req.taxPercentage
      && paymentTerms == req.paymentTerms && notes == req.notes
    }

    /**
     * `store` once the request is validated: a draft with nothing paid and no payments,
     * whose totals follow from the lines, and one new item per line.
     */
    constructor Store(id: nat, invoiceNumber: string, req: InvoiceRequest)
      ensures Valid() && !deleted
      ensures this.id == id && this.invoiceNumber == invoiceNumber && Describes(req)
      ensures TotalColumns() == RequestTotals(req)
      ensures paidAmount == 0.0 && status == Draft && paidAt == None && payments == []
      ensures ItemsMatch(items, id, req.items)
      ensures forall i :: 0 <= i < |items| ==> fresh(items[i])
    {
      this.id := id;
      this.invoiceNumber := invoiceNumber;
      customerId := req.customerId;
      projectId := req.projectId;
      quotationId := req.quotationId;
      invoiceDate := req.invoiceDate;
      dueDate := req.dueDate;
      var s := SumLines(req.items);
      var tax := TaxAmount(s, req.taxPercentage);
      var discount := req.discountAmount.GetOr(0.0);
      subtotal := s;
      taxPercentage := req.taxPercentage;
      taxAmount := tax;
      discountAmount := discount;
      totalAmount := s + tax - discount;
      paidAmount := 0.0;
      status := Draft;
      paidAt := None;
      paymentTerms := req.paymentTerms;
      notes := req.notes;
      payments := [];
      deleted := false;
      var created := CreateItems(id, req.items);
      items := created;
    }

    /** `edit`: only a draft may be edited; it is shown with its items. */
    method Edit() returns (r: Result<seq<InvoiceItem>, InvoiceError>)
      ensures r.Ok? <==> status == Draft
      ensures r.Ok? ==> r.value == items
      ensures r.Err? ==> r.error == NotDraft
    {
      if status != Draft {
        return Err(NotDraft);
      }
      r := Ok(items);
    }

    /**
     * `update`: refused unless the invoice is a draft, then refused if the request breaks
     * a rule; either refusal changes nothing. Otherwise the header and the totals follow
     * the request and the items are replaced by one new item per submitted line, while the
     * number, the status and the payments stay. The source writes `$$totalAmount` and reads
     * `payment_terms` from a request validated as `payment_term`; the model writes the
     * computed total and the submitted payment terms.
     */
    method Update(req: InvoiceRequest, dir: Directory) returns (err: Option<InvoiceError>)
      requires Valid()
      modifies this
      ensures Valid()
      ensures old(status) != Draft ==> err == Some(NotDraft) && unchanged(this)
      ensures old(status) == Draft && !RequestRulesHold(req, dir) ==> err == Some(InvalidRequest) && unchanged(this)
      ensures old(status) == Draft && RequestRulesHold(req, dir) ==>
        && err == None
        && Describes(req)
        && TotalColumns() == RequestTotals(req)
        && ItemsMatch(items, id, req.items)
        && (forall i :: 0 <= i < |items| ==> fresh(items[i]))
        && invoiceNumber == old(invoiceNumber) && payments == old(payments) && deleted == old(deleted)
        && paidAmount == old(paidAmount) && status == old(status) && paidAt == old(paidAt)
    {
      if status != Draft {
        return Some(NotDraft);
      }
      if !RequestRulesHold(req, dir) {
        return Some(InvalidRequest);
      }
      Rewrite(req);
      err := None;
    }

    /** The write half of `update`, once the guard and the validation have passed. */
    method Rewrite(req: InvoiceRequest)
      requires Valid()
      modifies this
      ensures Valid()
      ensures Describes(req) && TotalColumns() == RequestTotals(req)
      ensures ItemsMatch(items, id, req.items)
      ensures forall i :: 0 <= i < |items| ==> fresh(items[i])
      ensures invoiceNumber == old(invoiceNumber) && payments == old(payments) && deleted == old(deleted)
      ensures paidAmount == old(paidAmount) && status == old(status) && paidAt == old(paidAt)
    {
      WriteHeader(req);
      // The old items are deleted and one new item is created per submitted line.
      var created := CreateItems(id, req.items);
      items := created;
    }

    /** `$invoice->update([...])`: the header columns and the amounts. */
    method WriteHeader(req: InvoiceRequest)
      modifies this`customerId, this`projectId, this`quotationId, this`invoiceDate, this`dueDate
      modifies this`subtotal, this`taxPercentage, this`taxAmount, this`discountAmount, this`totalAmount
      modifies this`paymentTerms, this`notes
      ensures Describes(req) && TotalColumns() == RequestTotals(req)
    {
      var s := SumLines(req.items);
      var tax := TaxAmount(s, req.taxPercentage);
      var discount := req.discountAmount.GetOr(0.0);
      WriteDetails(req);
      WriteTotals(Totals(s, tax, discount, s + tax - discount));
    }

    /** The columns copied from the request. */
    method WriteDetails(req: InvoiceRequest)
      modifies this`customerId, this`projectId, this`quotationId, this`invoiceDate, this`dueDate
      modifies this`taxPercentage, this`paymentTerms, this`notes
      ensures Describes(req)
    {
      customerId, projectId, quotationId, invoiceDate, dueDate :=
        req.customerId, req.projectId, req.quotationId, req.invoiceDate, req.dueDate;
      taxPercentage, paymentTerms, notes := req.taxPercentage, req.paymentTerms, req.notes;
    }

    /** The four amount columns. */
    method WriteTotals(t: Totals)
      modifies this`subtotal, this`taxAmount, this`discountAmount, this`totalAmount
      ensures TotalColumns() == t
    {
      subtotal, taxAmount, discountAmount, totalAmount := t.subtotal, t.taxAmount, t.discountAmount, t.totalAmount;
    }

    /** `destroy`: only a draft may be deleted. */
    method Destroy() returns (err: Option<InvoiceError>)
      modifies this`deleted
      ensures old(status) != Draft ==> err == Some(NotDraft) && deleted == old(deleted)
      ensures old(status) == Draft ==> err == None && deleted
    {
      if status != Draft {
        return Some(NotDraft);
      }
      deleted := true;
      err := None;
    }

    /**
     * `markPaid`: an amount outside [0.01, remaining_amount], or a missing payment method,
     * is refused and changes nothing. Otherwise the payment is recorded and the invoice
     * updated as `MarkPaidBalance` says.
     */
    method MarkPaid(paymentDate: Date, amount: real, paymentMethod: string,
                    referenceNumber: Option<string>, paymentNotes: Option<string>, now: Timestamp)
      returns (r: Result<Payment, InvoiceError>)
      requires Valid()
      modifies this`payments, this`paidAmount, this`status, this`paidAt
      ensures Valid()
      ensures !PaymentRulesHold(amount, paymentMethod, old(RemainingAmount())) ==>
        r == Err(InvalidRequest) && unchanged(this)
      ensures PaymentRulesHold(amount, paymentMethod, old(RemainingAmount())) ==>
        && r == Ok(Payment(id, paymentDate, amount, paymentMethod, referenceNumber, paymentNotes))
        && payments == old(payments) + [r.value]
        && BalanceColumns() == MarkPaidBalance(old(BalanceColumns()), amount, now)
    {
      if !PaymentRulesHold(amount, paymentMethod, totalAmount - paidAmount) {
        return Err(InvalidRequest);
      }
      var payment := Payment(id, paymentDate, amount, paymentMethod, referenceNumber, paymentNotes);
      PaymentsTotalConcat(payments, [payment]);
      assert PaymentsTotal([payment]) == amount by {
        assert [payment][..0] == [];
      }
      payments := payments + [payment];

      var newPaidAmount := paidAmount + amount;
      paidAmount := newPaidAmount;
      if newPaidAmount >= totalAmount {
        status := Paid;
        paidAt := Some(now);
      } else {
        status := Partial;
      }
      r := Ok(payment);
    }
  }

  /** `store`: a request that breaks a rule is refused; a valid one becomes a new draft. */
  method StoreInvoice(id: nat, invoiceNumber: string, req: InvoiceRequest, dir: Directory)
    returns (r: Result<Invoice, InvoiceError>)
    ensures r.Err? <==> !RequestRulesHold(req, dir)
    ensures r.Err? ==> r.error == InvalidRequest
    ensures r.Ok? ==>
      && fresh(r.value) && r.value.Valid() && r.value.id == id && r.value.Describes(req)
      && r.value.TotalColumns() == RequestTotals(req)
      && r.value.BalanceColumns() == Balance(RequestTotals(req).totalAmount, 0.0, Draft, None)
      && r.value.payments == []
      && ItemsMatch(r.value.items, id, req.items)
  {
    if !RequestRulesHold(req, dir) {
      return Err(InvalidRequest);
    }
    var invoice := new Invoice.Store(id, invoiceNumber, req);
    r := Ok(invoice);
  }

  /**
   * As written, `store` leaves `total_amount` at its column default. With a default of
   * zero, an invoice of one line of 10 at 10.00 with 10% tax owes 110.00 but stores a
   * total of 0, so its remaining amount is 0 and `markPaid` refuses every payment.
   */
  lemma StoreLosesTotalAsWritten(req: InvoiceRequest, amount: real, paymentMethod: string)
    requires req.items == [ItemLine("Cable", 10.0, "m", 10.0)] && req.taxPercentage == 10.0 && req.discountAmount.None?
    ensures RequestTotals(req).totalAmount == 110.0
    ensures StoredTotalsAsWritten(req, 0.0, 0.0).totalAmount == 0.0
    ensures !PaymentRulesHold(amount, paymentMethod, StoredTotalsAsWritten(req, 0.0, 0.0).totalAmount - 0.0)
  {
    assert req.items[..0] == [];
    assert Subtotal(req.items) == LineSubtotal(10.0, 10.0) == 100.0;
    assert TaxAmount(100.0, 10.0) == 10.0;
  }
}
