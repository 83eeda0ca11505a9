/**
 * The payments table's model hooks (app/Models/Payment.php): creating a payment adds
 * its amount to the invoice's `paid_amount` and re-derives the status, deleting one
 * takes the amount off again. Each hook is a method on the invoice object, specified
 * by a function from the invoice's balance columns before to the columns after.
 */
module Payments {
  import opened Results
  import opened Calendar
  import opened Invoices

  /**
   * `paid_amount >= total`, where the total is the attribute the hook reads. PHP
   * compares a number with NULL by converting both to booleans, and `true >= false`
   * as well as `false >= false` hold: against a missing attribute every amount is
   * enough.
   */
  predicate PhpAtLeast(paid: real, total: Option<real>) {
    total.None? || paid >= total.value
  }

  /** The `created` hook, comparing against `comparedTotal`. */
  function CreatedHook(b: Balance, amount: real, now: Timestamp, comparedTotal: Option<real>): (r: Balance)
    ensures r.totalAmount == b.totalAmount && r.paidAmount == b.paidAmount + amount
  {
    var paid := b.paidAmount + amount;
    if PhpAtLeast(paid, comparedTotal) then Balance(b.totalAmount, paid, Paid, Some(now))
    else if paid > 0.0 then Balance(b.totalAmount, paid, Partial, b.paidAt)
    else Balance(b.totalAmount, paid, b.status, b.paidAt)
  }

  /**
   * The `created` hook as evidently intended, comparing with `total_amount`: the paid
   * amount grows by the payment; reaching the total marks the invoice paid now, a
   * positive amount short of it marks it partial, and anything else keeps the status.
   */
  function AfterPaymentCreated(b: Balance, amount: real, now: Timestamp): (r: Balance)
    ensures r.totalAmount == b.totalAmount && r.paidAmount == b.paidAmount + amount
    ensures r.paidAmount >= b.totalAmount ==> r.status == Paid && r.paidAt == Some(now)
    ensures 0.0 < r.paidAmount < b.totalAmount ==> r.status == Partial && r.paidAt == b.paidAt
    ensures r.paidAmount <= 0.0 && r.paidAmount < b.totalAmount ==> r.status == b.status && r.paidAt == b.paidAt
    ensures r.status == Draft ==> b.status == Draft
  {
    CreatedHook(b, amount, now, Some(b.totalAmount))
  }

  /**
   * The `created` hook as written: it reads `toal_amount`, an attribute no invoice has,
   * which is NULL, so every payment marks the invoice paid.
   */
  function AfterPaymentCreatedAsWritten(b: Balance, amount: real, now: Timestamp): (r: Balance)
    ensures r.paidAmount == b.paidAmount + amount && r.status == Paid && r.paidAt == Some(now)
  {
    CreatedHook(b, amount, now, None)
  }

  /**
   * The `deleted` hook: the paid amount shrinks by the payment; nothing left paid sends
   * the invoice back to `sent`, an amount short of the total makes it `partial`, both
   * clearing `paid_at`; an amount still at or above the total keeps status and `paid_at`.
   */
  function AfterPaymentDeleted(b: Balance, amount: real): (r: Balance)
    ensures r.totalAmount == b.totalAmount && r.paidAmount == b.paidAmount - amount
    ensures r.paidAmount <= 0.0 ==> r.status == Sent && r.paidAt == None
    ensures 0.0 < r.paidAmount < b.totalAmount ==> r.status == Partial && r.paidAt == None
    ensures r.paidAmount > 0.0 && r.paidAmount >= b.totalAmount ==> r.status == b.status && r.paidAt == b.paidAt
    ensures r.status == Draft ==> b.status == Draft
  {
    var paid := b.paidAmount - amount;
    if paid <= 0.0 then Balance(b.totalAmount, paid, Sent, None)
    else if paid < b.totalAmount then Balance(b.totalAmount, paid, Partial, None)
    else Balance(b.totalAmount, paid, b.status, b.paidAt)
  }

  /** Neither hook moves an invoice into `draft` or `overdue`: they only set `sent`, `partial` or `paid`. */
  lemma HooksNeverSetDraft(b: Balance, amount: real, now: Timestamp)
    ensures AfterPaymentCreated(b, amount, now).status in {b.status, Partial, Paid}
    ensures AfterPaymentDeleted(b, amount).status in {b.status, Sent, Partial}
    ensures AfterPaymentCreatedAsWritten(b, amount, now).status == Paid
  {
  }

  /**
   * Payments of a non-negative amount keep a consistent balance consistent, through
   * either hook: `paid_at` is set exactly when paid, paid means paid in full and partial
   * means paid in part.
   */
  lemma HooksKeepConsistent(b: Balance, amount: real, now: Timestamp)
    requires Consistent(b) && amount >= 0.0
    ensures Consistent(AfterPaymentCreated(b, amount, now))
    ensures Consistent(AfterPaymentDeleted(b, amount))
  {
  }

  /**
   * Deleting the payment just created restores the paid amount. The whole balance comes
   * back for an invoice that was partial, or sent with nothing paid; one that was already
   * paid (a positive amount) stays paid, with `paid_at` moved to the payment's creation.
   */
  lemma DeleteUndoesCreate(b: Balance, amount: real, now: Timestamp)
    requires Consistent(b) && amount >= 0.0
    ensures AfterPaymentDeleted(AfterPaymentCreated(b, amount, now), amount).paidAmount == b.paidAmount
    ensures b.status == Partial || (b.status == Sent && b.paidAmount == 0.0) ==>
      AfterPaymentDeleted(AfterPaymentCreated(b, amount, now), amount) == b
    ensures b.status == Paid && b.paidAmount > 0.0 ==>
      AfterPaymentDeleted(AfterPaymentCreated(b, amount, now), amount) == Balance(b.totalAmount, b.paidAmount, Paid, Some(now))
  {
    var c := AfterPaymentCreated(b, amount, now);
    if b.status == Partial {
      assert c.status == Partial || c.status == Paid;
    }
  }

  /**
   * For a payment `markPaid` accepts, its own update of the invoice and the corrected
   * `created` hook compute the same balance from the same starting columns.
   */
  lemma MarkPaidAgreesWithHook(b: Balance, amount: real, paymentMethod: string, now: Timestamp)
    requires b.paidAmount >= 0.0 && PaymentRulesHold(amount, paymentMethod, b.totalAmount - b.paidAmount)
    ensures MarkPaidBalance(b, amount, now) == AfterPaymentCreated(b, amount, now)
  {
  }

  /**
   * As written, the first part payment of 400 on a sent invoice of 1000 marks it paid,
   * with a `paid_at`, although 600 remain: the balance is no longer consistent. The
   * corrected hook marks it partial.
   */
  lemma AsWrittenMarksPartialPaid(now: Timestamp)
    ensures var b := Balance(1000.0, 0.0, Sent, None);
      && AfterPaymentCreatedAsWritten(b, 400.0, now) == Balance(1000.0, 400.0, Paid, Some(now))
      && !Consistent(AfterPaymentCreatedAsWritten(b, 400.0, now))
      && AfterPaymentCreated(b, 400.0, now) == Balance(1000.0, 400.0, Partial, None)
      && Consistent(AfterPaymentCreated(b, 400.0, now))
  {
  }

  /** Total 1000, payments of 400 and 600: paid in full; deleting the 600 leaves 400, partial. */
  lemma PaymentScenario(t1: Timestamp, t2: Timestamp)
    ensures var b1 := AfterPaymentCreated(Balance(1000.0, 0.0, Sent, None), 400.0, t1);
      var b2 := AfterPaymentCreated(b1, 600.0, t2);
      && b1 == Balance(1000.0, 400.0, Partial, None)
      && b2 == Balance(1000.0, 1000.0, Paid, Some(t2))
      && AfterPaymentDeleted(b2, 600.0) == Balance(1000.0, 400.0, Partial, None)
  {
  }

  /**
   * `Payment::create` followed by the `created` hook: the row is added to the invoice's
   * payments and the balance columns move as `AfterPaymentCreated` says, so the paid
   * amount is still the sum of the payments.
   */
  method CreatePayment(invoice: Invoice, payment: Payment, now: Timestamp)
    requires invoice.Valid() && payment.invoiceId == invoice.id
    modifies invoice`payments, invoice`paidAmount, invoice`status, invoice`paidAt
    ensures invoice.Valid()
    ensures invoice.payments == old(invoice.payments) + [payment]
    ensures invoice.BalanceColumns() == AfterPaymentCreated(old(invoice.BalanceColumns()), payment.amount, now)
  {
    PaymentsTotalConcat(invoice.payments, [payment]);
    assert PaymentsTotal([payment]) == payment.amount by {
      assert [payment][..0] == [];
    }
    invoice.payments := invoice.payments + [payment];
    Created(invoice, payment.amount, now);
  }

  /** The `created` hook on the payment's invoice. */
  method Created(invoice: Invoice, amount: real, now: Timestamp)
    modifies invoice`paidAmount, invoice`status, invoice`paidAt
    ensures invoice.BalanceColumns() == AfterPaymentCreated(old(invoice.BalanceColumns()), amount, now)
  {
    invoice.paidAmount := invoice.paidAmount + amount;
    if invoice.paidAmount >= invoice.totalAmount {
      invoice.status := Paid;
      invoice.paidAt := Some(now);
    } else if invoice.paidAmount > 0.0 {
      invoice.status := Partial;
    }
  }

  /**
   * Deleting payment `k` of the invoice, followed by the `deleted` hook: the row leaves
   * the payments and the balance columns move as `AfterPaymentDeleted` says, so the paid
   * amount is still the sum of the payments.
   */
  method DeletePayment(invoice: Invoice, k: nat)
    requires invoice.Valid() && k < |invoice.payments|
    modifies invoice`payments, invoice`paidAmount, invoice`status, invoice`paidAt
    ensures invoice.Valid()
    ensures invoice.payments == old(invoice.payments[..k] + invoice.payments[k + 1..])
    ensures invoice.BalanceColumns() == AfterPaymentDeleted(old(invoice.BalanceColumns()), old(invoice.payments[k].amount))
  {
    var payment := invoice.payments[k];
    PaymentsTotalRemove(invoice.payments, k);
    invoice.payments := invoice.payments[..k] + invoice.payments[k + 1..];
    Deleted(invoice, payment.amount);
  }

  /** The `deleted` hook on the payment's invoice. */
  method Deleted(invoice: Invoice, amount: real)
    modifies invoice`paidAmount, invoice`status, invoice`paidAt
    ensures invoice.BalanceColumns() == AfterPaymentDeleted(old(invoice.BalanceColumns()), amount)
  {
    invoice.paidAmount := invoice.paidAmount - amount;
    if invoice.paidAmount <= 0.0 {
      invoice.status := Sent;
      invoice.paidAt := None;
    } else if invoice.paidAmount < invoice.totalAmount {
      invoice.status := Partial;
      invoice.paidAt := None;
    }
  }
}
