# Construction-services ERP: the ledgers, in Dafny

This project is a Dafny model of the bookkeeping core of a Laravel ERP for construction
services, with proofs about it. The core covers:

- **Stock ledger** (`StockMovements`, `Inventories`). Recording a stock movement (`in`,
  `out`, `adjustment`) changes the item's quantity and re-derives its stock status. An
  `out` movement for a project charges the material cost to that project. Deleting a
  movement reverses both, and the project cost is clamped at zero. `InventoryController`
  creates and edits items. Editing never touches the quantity.
- **Invoice ledger** (`Invoices`, `Payments`).
  - Totals are computed from the submitted lines: subtotal, tax, discount and total.
  - `edit`, `update` and `destroy` are allowed only on a draft.
  - `update` replaces the items wholesale.
  - `markPaid` records a payment and updates the invoice.
  - The payments table's `created` and `deleted` hooks keep `paid_amount`, `status` and
    `paid_at` in step.
- **Line items** (`LineItems`). Invoice, quotation and purchase-order lines have
  `creating` and `updating` hooks that overwrite the subtotal with quantity times unit
  price. Purchase-order lines also have the remaining-quantity and fully-received
  accessors.
- **Customer codes** (`Customers`): `CUST` followed by a sequence number padded to at least six digits.
- **Attendance** (`Attendances`): worked hours, the late flag and the overtime flag.

How the source's features are modelled:

- Records the code changes in place are classes: `Inventory`, `StockLedger`, `Invoice`,
  and the three item classes. Their methods are specified by pure functions of the old
  state, such as `QuantityAfterStore`, `CostsAfterDestroy`, `RequestTotals`,
  `MarkPaidBalance`, `AfterPaymentCreated` and `AfterPaymentDeleted`. The lemmas are
  proved about those functions.
- Money and quantities are exact `real`s.
- Time is a whole number of seconds, and dates are a `Date` value.
- Every validation failure, missing record and draft-only refusal is reported in the
  result: an `Err`, a `None` or a `false`, or, for invoice `update` and `destroy`, a
  `Some(NotDraft)` or `Some(InvalidRequest)` refusal. A refused call leaves the state
  unchanged.
- Results of database queries, the clock and the signed-in user are parameters. This
  covers today's stock-movement reference, the invoice and item codes, the last customer
  code, the authenticated id and `now()`.

Where the code is evidently mistyped, the model follows the evident intent, and a comment
at the definition says so. As written, each of these mistypes makes its action fail:

- `exist:inventories,id` in stock-movement `store` is not a Laravel rule, so validation
  throws before anything is recorded;
- `exists:project,id` in the same rules queries a table that does not exist whenever a
  project is given;
- `unite_price` in invoice `store`, and `$$totalAmount` and `payment_terms` (the rules
  validate `payment_term`) in invoice `update`, read undefined keys or variables inside
  the transaction; Laravel turns the warning into an exception, so `store` and `update`
  always roll back;
- `InventoryController` calls `determineStatus` and `generateItemCode`, and no file of
  the source defines either, so inventory `store` and `update` throw. The model uses the
  stock-movement controller's classifier for the status and takes the item code as a
  parameter.

The model follows the intent in all of these. Two further defects change what the code
does without making an action fail. They are listed under Findings, each modelled both as
written and as corrected.

## Model

Source paths are relative to the repository root.

| member | source | states |
|---|---|---|
| Inventories.DetermineStatus | app/Http/Controllers/StockMovementController.php:13-21 | total and exclusive: out of stock iff qty ≤ 0, low stock iff 0 < qty ≤ minimum, available iff qty > 0 and qty > minimum (iff qty > minimum when the minimum is not negative) |
| Inventories.ParseCategory | app/Http/Controllers/InventoryController.php:50 | the `in:` rule accepts exactly the four category names, and an accepted name parses to the category of that name |
| Inventories.ParseCategoryName | app/Http/Controllers/InventoryController.php:50 | every category passes the rule under its own name |
| Inventories.Inventory.Store | app/Http/Controllers/InventoryController.php:46-63 | a validated item is stored with the submitted fields, a non-negative quantity and the status the classifier gives |
| Inventories.Inventory.Update | app/Http/Controllers/InventoryController.php:80-95 | accepted iff the rules hold; a refusal changes nothing; an accepted edit keeps quantity and item code, writes the fields and re-derives status from the kept quantity and the new minimum |
| Inventories.StoreItem | app/Http/Controllers/InventoryController.php:46-63 | an item is created iff the request passes validation, with the classifier's status |
| Calendar.FormatYmd | app/Http/Controllers/StockMovementController.php:24 | `date('Ymd')` is all digits |
| Calendar.FormatYmdLength | app/Http/Controllers/StockMovementController.php:24 | for a four-digit year it is exactly eight characters |
| Calendar.FormatYmdReadBack | app/Http/Controllers/StockMovementController.php:24 | the eight characters read back (as `intval` reads them) as the date: characters 0-4 are the year, 4-6 the month and 6-8 the day |
| StockMovements.ReferenceNumber | app/Http/Controllers/StockMovementController.php:24 | a generated reference starts with `SM` |
| StockMovements.SequenceNumber | app/Http/Controllers/StockMovementController.php:24 | today's sequence number is padded to at least four characters |
| StockMovements.SequenceNumberValue | app/Http/Controllers/StockMovementController.php:24 | the padded sequence number reads back as the number |
| StockMovements.ReferenceNumberParts | app/Http/Controllers/StockMovementController.php:24 | the reference has at least 14 characters: characters 2-10 are the date, and the rest reads back as today's count plus one |
| StockMovements.StockSuffices | app/Http/Controllers/StockMovementController.php:90 | only an `out` can be refused, and it passes iff its quantity is at most the stock on hand |
| StockMovements.QuantityAfterStore | app/Http/Controllers/StockMovementController.php:99-109 | the new quantity is the old one plus the signed delta (`in`/`adjustment` add, `out` subtracts) |
| StockMovements.QuantityAfterDestroy | app/Http/Controllers/StockMovementController.php:152-160 | the new quantity is the old one minus the signed delta |
| StockMovements.AcceptedStoreKeepsStock | app/Http/Controllers/StockMovementController.php:90-109 | an out that passes the stock check never takes a non-negative stock below zero; `in`/`adjustment` strictly raise it |
| StockMovements.DestroyCanGoNegative | app/Http/Controllers/StockMovementController.php:152-162 | deleting an `in`/`adjustment` larger than the stock makes the quantity negative and the status out of stock |
| StockMovements.CostsAfterStore | app/Http/Controllers/StockMovementController.php:123-128 | only an `out` for a project changes costs, and it raises that project's cost by exactly the material cost; the same projects keep every other cost |
| StockMovements.CostsAfterDestroy | app/Http/Controllers/StockMovementController.php:165-170 | only an `out` for a project changes costs; that cost becomes max(0, cost − material cost), never negative; others unchanged |
| StockMovements.MaterialCost | app/Http/Controllers/StockMovementController.php:125 | a non-negative price times a non-negative quantity is non-negative |
| StockMovements.CostsStayNonNegative | app/Http/Controllers/StockMovementController.php:123-170 | charging and clamped refunding keep every project cost non-negative |
| StockMovements.Find | app/Http/Controllers/StockMovementController.php:147 | a movement is found iff its id is in the ledger, and the found movement has that id |
| StockMovements.Without | app/Http/Controllers/StockMovementController.php:172 | deleting drops exactly that id, keeps only existing movements and id uniqueness, and is the identity for an absent id |
| StockMovements.AppendMovement | app/Http/Controllers/StockMovementController.php:113-121 | recording adds the id and the movement's delta, and keeps ids unique when the id is new |
| StockMovements.NetDeltaWithout | app/Http/Controllers/StockMovementController.php:152-172 | deleting a movement with a unique id removes exactly its delta from the net effect |
| StockMovements.WithoutLastAppended | app/Http/Controllers/StockMovementController.php:172 | deleting the movement just recorded gives back the earlier list |
| StockMovements.DestroyUndoesStore | app/Http/Controllers/StockMovementController.php:99-172 | store then destroy of the same movement restores quantity, status, movement list and (for non-negative costs) every project cost |
| StockMovements.AppendKeeps | app/Http/Controllers/StockMovementController.php:113-121 | recording a movement under the next id keeps the ledger's bookkeeping |
| StockMovements.WithoutKeeps | app/Http/Controllers/StockMovementController.php:172 | deleting a movement keeps the bookkeeping and removes exactly its delta |
| StockMovements.StockLedger.Store | app/Http/Controllers/StockMovementController.php:77-139 | invalid request: refused; valid `out` over the stock: refused with the available stock; otherwise the movement (given or generated reference, user or 1) is appended, the quantity moves by its delta, the status is re-derived and an out for a project is charged; a refusal changes nothing; the ledger invariant (quantity = opening + net delta of live movements) holds |
| StockMovements.StockLedger.Record | app/Http/Controllers/StockMovementController.php:97-128 | the write half of `store`, with the same new state and the invariant kept |
| StockMovements.StockLedger.Destroy | app/Http/Controllers/StockMovementController.php:147-172 | refused iff the id is not in the ledger; otherwise the movement is removed, its delta reversed without a stock check, the status re-derived and the clamped refund applied; the invariant holds |
| StockMovements.StockLedger.Reverse | app/Http/Controllers/StockMovementController.php:150-172 | the write half of `destroy`, with the same new state and the invariant kept |
| StockMovements.StockLedger.UpdateInventory | app/Http/Controllers/InventoryController.php:80-95 | editing the item keeps the ledger invariant: the quantity is never touched |
| StockMovements.StoreThenDestroy | app/Http/Controllers/StockMovementController.php:77-172 | recording a movement and deleting it again leaves quantity, status, movement list and costs as they were |
| StockMovements.LowStockScenario | app/Http/Controllers/StockMovementController.php:90-110 | qty 10, minimum 5: an out of 7 leaves 3 and low stock; a further out of 5 is refused with 3 available |
| LineItems.LineSubtotal | app/Models/InvoiceItem.php:36 | non-negative for non-negative quantity and price, zero when either is zero |
| LineItems.InvoiceItem.Create | app/Models/InvoiceItem.php:35-37 | creating writes the given fields, and the hook replaces the given subtotal by quantity × unit price |
| LineItems.InvoiceItem.Creating | app/Models/InvoiceItem.php:35-37 | after the hook the subtotal is quantity × unit price |
| LineItems.InvoiceItem.Update | app/Models/InvoiceItem.php:39-41 | an update writes the fields and the hook re-derives the subtotal, whatever was passed |
| LineItems.InvoiceItem.Updating | app/Models/InvoiceItem.php:39-41 | after the hook the subtotal is quantity × unit price |
| LineItems.QuotationItem.Create | app/Models/QuotationItem.php:36-38 | as for invoice items, with the item type kept |
| LineItems.QuotationItem.Creating | app/Models/QuotationItem.php:36-38 | after the hook the subtotal is quantity × unit price |
| LineItems.QuotationItem.Update | app/Models/QuotationItem.php:40-42 | an update writes the fields and the hook re-derives the subtotal |
| LineItems.QuotationItem.Updating | app/Models/QuotationItem.php:40-42 | after the hook the subtotal is quantity × unit price |
| LineItems.PurchaseOrderItem.Create | app/Models/PurchaseOrderItem.php:51-53 | as for invoice items, with inventory link and received quantity kept |
| LineItems.PurchaseOrderItem.Creating | app/Models/PurchaseOrderItem.php:51-53 | after the hook the subtotal is quantity × unit price |
| LineItems.PurchaseOrderItem.Update | app/Models/PurchaseOrderItem.php:55-57 | an update writes the fields and the hook re-derives the subtotal |
| LineItems.PurchaseOrderItem.Updating | app/Models/PurchaseOrderItem.php:55-57 | after the hook the subtotal is quantity × unit price |
| LineItems.PurchaseOrderItem.RemainingQuantity | app/Models/PurchaseOrderItem.php:39-41 | remaining plus received (null as 0) is the ordered quantity |
| LineItems.PurchaseOrderItem.IsFullyReceived | app/Models/PurchaseOrderItem.php:43-45 | an unset `received_quantity` (`None`) is never fully received; a stored line with nothing received holds 0 (`Some(0.0)`, the column default) and is fully received iff 0 ≥ the ordered quantity |
| LineItems.PurchaseOrderItem.FullyReceivedIffNothingRemains | app/Models/PurchaseOrderItem.php:39-45 | fully received iff a receipt exists and nothing remains |
| Invoices.Subtotal | app/Http/Controllers/InvoiceController.php:171-174 | the sum of quantity × unit price is non-negative for non-negative lines |
| Invoices.SumLines | app/Http/Controllers/InvoiceController.php:171-174 | the accumulating loop computes the sum of the line subtotals |
| Invoices.TaxAmount | app/Http/Controllers/InvoiceController.php:176 | with a rate in [0, 100], 0 ≤ tax ≤ subtotal; a zero rate gives no tax |
| Invoices.TaxBounds | app/Http/Controllers/InvoiceController.php:176 | the product bound behind the tax range |
| Invoices.RequestTotals | app/Http/Controllers/InvoiceController.php:171-178 | subtotal is the lines' sum, tax follows the rate, the discount is the submitted one or 0 when none is given, and total + discount = subtotal + tax |
| Invoices.ValidRequestTotals | app/Http/Controllers/InvoiceController.php:150-178 | for a validated request: subtotal ≥ 0, 0 ≤ tax ≤ subtotal, discount ≥ 0, total ≤ subtotal + tax ≤ 2 × subtotal |
| Invoices.StoredTotalsAsWritten | app/Http/Controllers/InvoiceController.php:87-101 | as written, `store` writes subtotal and tax but leaves discount and total at their column defaults |
| Invoices.StoreLosesTotalAsWritten | app/Http/Controllers/InvoiceController.php:87-101 | one line of 10 at 10.00 with 10% tax owes 110, but as written the stored total is 0 and no payment is accepted |
| Invoices.MatchingItemsSubtotal | app/Http/Controllers/InvoiceController.php:196-206 | items created from the lines add up to the lines' subtotal |
| Invoices.HeaderAgreesWithItems | app/Http/Controllers/InvoiceController.php:171-206 | the header subtotal equals the sum of the stored items' subtotals |
| Invoices.CreateItems | app/Http/Controllers/InvoiceController.php:197-206 | one new item per line, in order, with the line's fields and the hooked subtotal |
| Invoices.MarkPaidBalance | app/Http/Controllers/InvoiceController.php:251-259 | paid' = paid + amount; paid with `paid_at = now` iff paid' ≥ total, otherwise partial with `paid_at` kept |
| Invoices.MarkPaidKeepsConsistent | app/Http/Controllers/InvoiceController.php:232-259 | an accepted payment keeps the balance consistent, never overpays, and marks paid exactly when paid in full |
| Invoices.PaidInvoiceRefusesPayment | app/Http/Controllers/InvoiceController.php:232 | a consistent paid invoice accepts no payment |
| Invoices.Invoice.RemainingAmount | app/Http/Controllers/InvoiceController.php:232 | remaining plus paid is the total (the assumed `remaining_amount` column) |
| Invoices.Invoice.Store | app/Http/Controllers/InvoiceController.php:87-112 | a new draft with nothing paid, no payments and no `paid_at`; header from the request, totals from `RequestTotals`, one item per line |
| Invoices.StoreInvoice | app/Http/Controllers/InvoiceController.php:55-121 | refused iff validation fails; otherwise a fresh draft as above |
| Invoices.Invoice.Edit | app/Http/Controllers/InvoiceController.php:130-142 | allowed iff draft, showing the invoice's items |
| Invoices.Invoice.Update | app/Http/Controllers/InvoiceController.php:144-216 | a non-draft is refused, then an invalid request; neither changes anything; otherwise header and totals follow the request, the items are exactly the submitted lines, and number, status and payments are kept |
| Invoices.Invoice.Rewrite | app/Http/Controllers/InvoiceController.php:181-206 | the write half of `update` with that new state |
| Invoices.Invoice.WriteHeader | app/Http/Controllers/InvoiceController.php:181-194 | `$invoice->update`: header fields from the request and totals from `RequestTotals` |
| Invoices.Invoice.WriteDetails | app/Http/Controllers/InvoiceController.php:181-194 | the customer, project, quotation, dates, tax rate, payment terms and notes are the request's |
| Invoices.Invoice.WriteTotals | app/Http/Controllers/InvoiceController.php:187-191 | the four amount columns are the given totals |
| Invoices.Invoice.Destroy | app/Http/Controllers/InvoiceController.php:218-224 | deleted iff draft; otherwise refused with nothing changed |
| Invoices.Invoice.MarkPaid | app/Http/Controllers/InvoiceController.php:228-265 | an amount outside [0.01, remaining] or no method: refused, nothing changed; otherwise the payment is appended and the balance moves as `MarkPaidBalance` says; paid = Σ payments is kept |
| Payments.CreatedHook | app/Models/Payment.php:34-46 | the hook adds exactly the payment's amount to the paid amount and keeps the total |
| Payments.AfterPaymentCreated | app/Models/Payment.php:34-46 | paid rises by the amount; paid' ≥ total gives paid, `paid_at = now`; 0 < paid' < total gives partial; a draft is never produced |
| Payments.AfterPaymentCreatedAsWritten | app/Models/Payment.php:38 | comparing with the missing `toal_amount`, every payment marks the invoice paid with `paid_at = now` |
| Payments.AfterPaymentDeleted | app/Models/Payment.php:48-61 | paid falls by the amount; paid' ≤ 0 gives sent, and 0 < paid' < total gives partial, both clearing `paid_at`; paid' ≥ total keeps status and `paid_at` |
| Payments.HooksNeverSetDraft | app/Models/Payment.php:34-61 | the hooks only set sent, partial or paid, or keep the status |
| Payments.HooksKeepConsistent | app/Models/Payment.php:34-61 | for a non-negative amount both corrected hooks keep a consistent balance consistent |
| Payments.DeleteUndoesCreate | app/Models/Payment.php:36-58 | create then delete restores the paid amount; a partial, or sent-and-unpaid, balance is fully restored; a paid one stays paid with `paid_at` moved |
| Payments.MarkPaidAgreesWithHook | app/Models/Payment.php:34-46 | for an accepted payment, `markPaid`'s update and the corrected hook compute the same balance |
| Payments.AsWrittenMarksPartialPaid | app/Models/Payment.php:38-43 | as written, 400 of 1000 marks the invoice paid (inconsistent); corrected, partial |
| Payments.PaymentScenario | app/Models/Payment.php:34-61 | total 1000: 400 then 600 gives paid 1000 and paid; deleting the 600 gives 400 and partial with no `paid_at` |
| Payments.CreatePayment | app/Models/Payment.php:34-46 | the payment is appended, the balance moves as `AfterPaymentCreated` says, and paid = Σ payments is kept |
| Payments.Created | app/Models/Payment.php:34-46 | the `created` hook's field updates are `AfterPaymentCreated` |
| Payments.DeletePayment | app/Models/Payment.php:48-61 | the payment is removed, the balance moves as `AfterPaymentDeleted` says, and paid = Σ payments is kept |
| Payments.Deleted | app/Models/Payment.php:48-61 | the `deleted` hook's field updates are `AfterPaymentDeleted` |
| Customers.CodeFor | app/Http/Controllers/CustomerController.php:14 | `CUST` followed by at least six characters, all digits for a non-negative number |
| Customers.NextNumber | app/Http/Controllers/CustomerController.php:12 | 1 with no customer yet, or for a code with nothing after `CUST`; otherwise the digits after `CUST` read as a number, plus one |
| Customers.GenerateCustomerCode | app/Http/Controllers/CustomerController.php:10-15 | always starts with `CUST` and has at least ten characters; with no customer yet it is `CUST000001` |
| Customers.NumberOfCodeFor | app/Http/Controllers/CustomerController.php:12-14 | round trip: `intval(substr(code, 4))` of the code for n is n |
| Customers.NextAfterCodeFor | app/Http/Controllers/CustomerController.php:12-14 | after the code for n the generator gives the code for n + 1 |
| Customers.CodeForInjective | app/Http/Controllers/CustomerController.php:14 | distinct numbers give distinct codes, since padding never truncates |
| Attendances.ElapsedMinutes | app/Models/Attendance.php:40 | whole minutes between the instants, in either order |
| Attendances.WorkHundredths | app/Models/Attendance.php:41 | the nearest hundredth of an hour to the exact minutes / 60 |
| Attendances.OvertimeIffOverEightHours | app/Models/Attendance.php:71-73 | the rounded hours exceed 8 iff more than 480 minutes were worked |
| Attendances.Attendance.CalculateWorkHours | app/Models/Attendance.php:38-44 | with both instants, hours are the rounded elapsed minutes / 60, and overtime iff over 480 minutes; otherwise the hours are untouched |
| Attendances.Attendance.IsOvertime | app/Models/Attendance.php:71-73 | overtime iff the stored work hours exceed 8; for hours derived from both instants, iff more than 480 minutes were worked |
| Attendances.Attendance.IsLate | app/Models/Attendance.php:63-69 | late iff there is a clock-in and its time of day is after 08:00:00 |

## Left out

- I/O is not modelled: HTTP requests, redirects, flash messages, views and the database.
  Database transactions are assumed atomic: a refused or failed action changes nothing.
  Exceptions from the database are not modelled.
- Requests are taken as they are after Laravel's input middleware (`TrimStrings`,
  `ConvertEmptyStringsToNull`). The `required` rules of the model therefore accept a
  string that is only whitespace, and string values are not trimmed.
- Decimal columns (`decimal:2` casts) are not rounded to two places. Amounts are exact
  reals, and PHP float arithmetic is not modelled.
- The stock-movement reference number takes today's date and today's count as
  parameters. The clock and the count query are not modelled.
- `StockMovements.StockLedger.Store` takes the generated reference as a parameter and
  does not tie it to `ReferenceNumber`. `ReferenceNumberParts` states the reference's
  format separately.
- `generateInvoiceNumber` is left out because it reads the database and the clock. Its
  result is a parameter. `generateItemCode` is called but not defined anywhere in the
  source; the item code is a parameter too.
- `Customers.GenerateCustomerCode` takes the last customer's code as a parameter.
- `intval` skips leading whitespace and, since PHP 7.1, reads a numeric string with an
  exponent (`intval("1e3")` is 1000). `PhpStrings.IntVal` does neither (it gives 1 for
  `"1e3"`), and it has no integer overflow. None of this arises for codes the generator
  itself produced.
- `Attendances.ElapsedMinutes` uses Carbon 2's absolute `diffInMinutes`. Time zones and
  daylight saving are not modelled: instants are seconds from a local midnight.
- `markPaid`'s own update and the `created` hook are modelled as separate operations,
  and each writes the invoice. In the source they run against two separately loaded
  instances of the same invoice within one request. Which write wins is not modelled.
  `Payments.MarkPaidAgreesWithHook` shows that the corrected hook and `markPaid` compute
  the same balance.
- `overdue` is never set by any modelled operation.
- The `InvoiceController` actions `index`, `show` and `create`, the `InventoryController`
  actions `index` and `show`, the Dashboard and Report controllers, and the routes only
  read or display, and are not modelled.
- `InventoryController` `destroy` (a soft delete of the item) and `adjustStock` are
  outside the modelled core and not modelled; `adjustStock` is a stub whose transaction
  body is empty.
- Route-model binding of a soft-deleted or missing invoice is not modelled.
- Invoice `store`'s `unite_price` is modelled as `unit_price`. Invoice `update`'s
  `$$totalAmount` is modelled as the computed total, and its `payment_terms` as the
  submitted payment terms.
- `remaining_amount` is a column of the invoices table: the Dashboard and Report
  controllers sum it in SQL. The model assumes it always equals `total_amount` −
  `paid_amount` (for example, a generated column). Neither the invoices migration nor
  the Invoice model is part of this model, so this is not confirmed.
- `Invoices.StoredTotalsAsWritten` takes the column defaults of `discount_amount` and
  `total_amount` as parameters, because the invoices migration is not part of this
  model.
- `Invoices.Invoice.Store` and `StoreInvoice` model the evidently intended behaviour, in
  which `store` writes the computed total and discount. The as-written behaviour is
  listed under Findings.
- `Payments.CreatePayment` and `Payments.DeletePayment` require the payment to belong to
  the invoice they update. The `belongsTo` lookup itself is not modelled.

## Findings

| source | as written | input that shows it | evidently intended | confidence | as-written member | corrected member |
|---|---|---|---|---|---|---|
| app/Models/Payment.php:38 | `paid_amount >= toal_amount` reads a missing attribute (NULL), and PHP's number-versus-NULL comparison always holds, so every payment marks the invoice `paid` with `paid_at` set | invoice total 1000, nothing paid, payment of 400 | compare with `total_amount`, as the `deleted` hook does, so a part payment gives `partial` | high, not executed | Payments.AfterPaymentCreatedAsWritten, Payments.AsWrittenMarksPartialPaid | Payments.AfterPaymentCreated, Payments.HooksKeepConsistent |
| app/Http/Controllers/InvoiceController.php:87-101 | `Invoice::create` is given `subtotal` and `tax_amount` but not `total_amount` or `discount_amount`, so the computed total is lost and the remaining amount is the column default minus what was paid | one line of quantity 10 at 10.00, tax 10%, no discount, default total 0 | store the computed total and discount, as `update` does | medium (the column default is not known), not executed | Invoices.StoredTotalsAsWritten, Invoices.StoreLosesTotalAsWritten | Invoices.Invoice.Store, Invoices.RequestTotals |
