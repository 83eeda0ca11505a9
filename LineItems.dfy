/**
 * The line items of invoices, quotations and purchase orders. Each keeps a
 * `subtotal` column that its model's `creating` and `updating` hooks overwrite with
 * `quantity * unit_price` whenever the row is written, whatever subtotal was
 * mass-assigned. Purchase-order lines also track the quantity received so far.
 */
module LineItems {
  import opened Results

  /** The subtotal the hooks write: `quantity * unit_price`. */
  function LineSubtotal(quantity: real, unitPrice: real): (s: real)
    ensures quantity >= 0.0 && unitPrice >= 0.0 ==> s >= 0.0
    ensures quantity == 0.0 || unitPrice == 0.0 ==> s == 0.0
  {
    quantity * unitPrice
  }

  class InvoiceItem {
    var invoiceId: nat
    var description: string
    var quantity: real
    var unit: string
    var unitPrice: real
    var subtotal: real

    /** The line's subtotal agrees with its quantity and unit price. */
    ghost predicate Valid()
      reads this
    {
      subtotal == LineSubtotal(quantity, unitPrice)
    }

    /** `InvoiceItem::create`: the `creating` hook replaces the given subtotal. */
    constructor Create(invoiceId: nat, description: string, quantity: real, unit: string, unitPrice: real, subtotal: real)
      ensures Valid()
      ensures this.invoiceId == invoiceId && this.description == description && this.unit == unit
      ensures this.quantity == quantity && this.unitPrice == unitPrice
    {
      this.invoiceId := invoiceId;
      this.description := description;
      this.quantity := quantity;
      this.unit := unit;
      this.unitPrice := unitPrice;
      this.subtotal := subtotal;
      new;
      Creating();
    }

    /** The `creating` hook. */
    method Creating()
      modifies this`subtotal
      ensures Valid()
    {
      subtotal := quantity * unitPrice;
    }

    /** A mass update of the fillable fields, saved through the `updating` hook. */
    method Update(description: string, quantity: real, unit: string, unitPrice: real, subtotal: real)
      modifies this
      ensures Valid()
      ensures invoiceId == old(invoiceId) && this.description == description && this.unit == unit
      ensures this.quantity == quantity && this.unitPrice == unitPrice
    {
      this.description := description;
      this.quantity := quantity;
      this.unit := unit;
      this.unitPrice := unitPrice;
      this.subtotal := subtotal;
      Updating();
    }

    /** The `updating` hook. */
    method Updating()
      modifies this`subtotal
      ensures Valid()
    {
      subtotal := quantity * unitPrice;
    }
  }

  class QuotationItem {
    var quotationId: nat
    var description: string
    var quantity: real
    var unit: string
    var unitPrice: real
    var subtotal: real
    var itemType: Option<string>

    ghost predicate Valid()
      reads this
    {
      subtotal == LineSubtotal(quantity, unitPrice)
    }

    /** `QuotationItem::create`: the `creating` hook replaces the given subtotal. */
    constructor Create(quotationId: nat, description: string, quantity: real, unit: string, unitPrice: real, subtotal: real, itemType: Option<string>)
      ensures Valid()
      ensures this.quotationId == quotationId && this.description == description && this.unit == unit
      ensures this.quantity == quantity && this.unitPrice == unitPrice && this.itemType == itemType
    {
      this.quotationId := quotationId;
      this.description := description;
      this.quantity := quantity;
      this.unit := unit;
      this.unitPrice := unitPrice;
      this.subtotal := subtotal;
      this.itemType := itemType;
      new;
      Creating();
    }

    /** The `creating` hook. */
    method Creating()
      modifies this`subtotal
      ensures Valid()
    {
      subtotal := quantity * unitPrice;
    }

    /** A mass update of the fillable fields, saved through the `updating` hook. */
    method Update(description: string, quantity: real, unit: string, unitPrice: real, subtotal: real, itemType: Option<string>)
      modifies this
      ensures Valid()
      ensures quotationId == old(quotationId) && this.description == description && this.unit == unit
      ensures this.quantity == quantity && this.unitPrice == unitPrice && this.itemType == itemType
    {
      this.description := description;
      this.quantity := quantity;
      this.unit := unit;
      this.unitPrice := unitPrice;
      this.subtotal := subtotal;
      this.itemType := itemType;
      Updating();
    }

    /** The `updating` hook. */
    method Updating()
      modifies this`subtotal
      ensures Valid()
    {
      subtotal := quantity * unitPrice;
    }
  }

  class PurchaseOrderItem {
    var purchaseOrderId: nat
    var inventoryId: Option<nat>
    var itemName: string
    var description: Option<string>
    var quantity: real
    var unit: string
    var unitPrice: real
    var subtotal: real
    /**
     * `received_quantity`: the column defaults to 0, so a stored line with nothing
     * received holds `Some(0.0)`; `None` is an attribute that was never set or loaded.
     */
    var receivedQuantity: Option<real>

    ghost predicate Valid()
      reads this
    {
      subtotal == LineSubtotal(quantity, unitPrice)
    }

    /** `PurchaseOrderItem::create`: the `creating` hook replaces the given subtotal. */
    constructor Create(
      purchaseOrderId: nat, inventoryId: Option<nat>, itemName: string, description: Option<string>,
      quantity: real, unit: string, unitPrice: real, subtotal: real, receivedQuantity: Option<real>)
      ensures Valid()
      ensures this.purchaseOrderId == purchaseOrderId && this.inventoryId == inventoryId
      ensures this.itemName == itemName && this.description == description && this.unit == unit
      ensures this.quantity == quantity && this.unitPrice == unitPrice
      ensures this.receivedQuantity == receivedQuantity
    {
      this.purchaseOrderId := purchaseOrderId;
      this.inventoryId := inventoryId;
      this.itemName := itemName;
      this.description := description;
      this.quantity := quantity;
      this.unit := unit;
      this.unitPrice := unitPrice;
      this.subtotal := subtotal;
      this.receivedQuantity := receivedQuantity;
      new;
      Creating();
    }

    /** The `creating` hook. */
    method Creating()
      modifies this`subtotal
      ensures Valid()
    {
      subtotal := quantity * unitPrice;
    }

    /** A mass update of the fillable fields, saved through the `updating` hook. */
    method Update(
      inventoryId: Option<nat>, itemName: string, description: Option<string>,
      quantity: real, unit: string, unitPrice: real, subtotal: real, receivedQuantity: Option<real>)
      modifies this
      ensures Valid()
      ensures purchaseOrderId == old(purchaseOrderId) && this.inventoryId == inventoryId
      ensures this.itemName == itemName && this.description == description && this.unit == unit
      ensures this.quantity == quantity && this.unitPrice == unitPrice
      ensures this.receivedQuantity == receivedQuantity
    {
      this.inventoryId := inventoryId;
      this.itemName := itemName;
      this.description := description;
      this.quantity := quantity;
      this.unit := unit;
      this.unitPrice := unitPrice;
      this.subtotal := subtotal;
      this.receivedQuantity := receivedQuantity;
      Updating();
    }

    /** The `updating` hook. */
    method Updating()
      modifies this`subtotal
      ensures Valid()
    {
      subtotal := quantity * unitPrice;
    }

    /** `remaining_quantity`: what is still to be received, a missing receipt counting as none. */
    function RemainingQuantity(): (r: real)
      reads this
      ensures r + receivedQuantity.GetOr(0.0) == quantity
      ensures receivedQuantity.None? ==> r == quantity
    {
      quantity - receivedQuantity.GetOr(0.0)
    }

    /**
     * `is_fully_received`: the received quantity is at least the ordered one. The
     * decimal cast hands both to PHP as strings, and NULL against a numeric string
     * compares as the empty string, which is smaller; so an unset attribute is never
     * fully received, not even when zero was ordered. A stored line with nothing
     * received holds 0, and is fully received exactly when zero was ordered.
     */
    predicate IsFullyReceived()
      reads this
      ensures IsFullyReceived() ==> receivedQuantity.Some?
      ensures receivedQuantity == Some(0.0) ==> (IsFullyReceived() <==> quantity <= 0.0)
    {
      match receivedQuantity
      case None => false
      case Some(received) => received >= quantity
    }

    /** The two accessors agree: fully received exactly when a receipt exists and nothing remains. */
    lemma FullyReceivedIffNothingRemains()
      ensures IsFullyReceived() <==> receivedQuantity.Some? && RemainingQuantity() <= 0.0
    {
    }
  }
}
