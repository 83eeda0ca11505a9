/**
 * Inventory items (the inventories table) and the two InventoryController actions
 * that write one: `store` creates the record and `update` edits its descriptive
 * fields. The stock status is derived from the quantity and the minimum stock by
 * the classifier StockMovementController defines (`determineStatus`);
 * InventoryController calls a `determineStatus` of its own that it never defines,
 * so the model uses the stock-movement classifier on both paths.
 */
module Inventories {
  import opened Results

  datatype Category = Electrical | Mechanical | Tools | Consumables

  datatype StockStatus = Available | LowStock | OutOfStock

  function CategoryName(c: Category): string {
    match c
    case Electrical => "electrical"
    case Mechanical => "mechanical"
    case Tools => "tools"
    case Consumables => "consumables"
  }

  /** The validation rule `in:electrical,mechanical,tools,consumables`. */
  function ParseCategory(s: string): (r: Option<Category>)
    ensures r.Some? <==> s in {"electrical", "mechanical", "tools", "consumables"}
    ensures r.Some? ==> CategoryName(r.value) == s
  {
    if s == "electrical" then Some(Electrical)
    else if s == "mechanical" then Some(Mechanical)
    else if s == "tools" then Some(Tools)
    else if s == "consumables" then Some(Consumables)
    else None
  }

  /** Every category survives the validation rule under its own name. */
  lemma ParseCategoryName(c: Category)
    ensures ParseCategory(CategoryName(c)) == Some(c)
  {
  }

  /**
   * `determineStatus`: a total classifier whose three outcomes are exclusive. With a
   * non-negative minimum stock, `available` means strictly above the minimum.
   */
  function DetermineStatus(quantity: real, minimumStock: real): (s: StockStatus)
    ensures s == OutOfStock <==> quantity <= 0.0
    ensures s == LowStock <==> 0.0 < quantity <= minimumStock
    ensures s == Available <==> 0.0 < quantity && minimumStock < quantity
    ensures minimumStock >= 0.0 ==> (s == Available <==> quantity > minimumStock)
  {
    if quantity <= 0.0 then OutOfStock
    else if quantity <= minimumStock then LowStock
    else Available
  }

  /** `required|string|max:n` */
  predicate RequiredWithin(s: string, max: nat) {
    1 <= |s| <= max
  }

  /** `nullable|string|max:n` */
  predicate OptionalWithin(s: Option<string>, max: nat) {
    s.None? || |s.value| <= max
  }

  /** The fields `store` validates. */
  datatype NewItem = NewItem(
    itemName: string, category: string, description: Option<string>, unit: string,
    quantity: real, minimumStock: real, unitPrice: real,
    supplier: Option<string>, location: Option<string>)

  /** The fields `update` validates: the same, except that the quantity is not among them. */
  datatype ItemChanges = ItemChanges(
    itemName: string, category: string, description: Option<string>, unit: string,
    minimumStock: real, unitPrice: real,
    supplier: Option<string>, location: Option<string>)

  predicate StoreRulesHold(r: NewItem) {
    && RequiredWithin(r.itemName, 255)
    && ParseCategory(r.category).Some?
    && RequiredWithin(r.unit, 50)
    && r.quantity >= 0.0 && r.minimumStock >= 0.0 && r.unitPrice >= 0.0
    && OptionalWithin(r.supplier, 255) && OptionalWithin(r.location, 255)
  }

  predicate UpdateRulesHold(c: ItemChanges) {
    && RequiredWithin(c.itemName, 255)
    && ParseCategory(c.category).Some?
    && RequiredWithin(c.unit, 50)
    && c.minimumStock >= 0.0 && c.unitPrice >= 0.0
    && OptionalWithin(c.supplier, 255) && OptionalWithin(c.location, 255)
  }

  class Inventory {
    const id: nat
    var itemCode: string
    var itemName: string
    var category: Category
    var description: Option<string>
    var unit: string
    var quantity: real
    var minimumStock: real
    var unitPrice: real
    var supplier: Option<string>
    var location: Option<string>
    var status: StockStatus

    /** What every path that writes an item maintains: the status is the classifier's. */
    ghost predicate Valid()
      reads this
    {
      status == DetermineStatus(quantity, minimumStock) && minimumStock >= 0.0 && unitPrice >= 0.0
    }

    /**
     * `store`: a validated request becomes a new item whose status is derived from its
     * quantity. The item code comes from a generator that is not part of this model.
     */
    constructor Store(id: nat, itemCode: string, r: NewItem)
      requires StoreRulesHold(r)
      ensures Valid() && quantity >= 0.0
      ensures this.id == id && this.itemCode == itemCode
      ensures itemName == r.itemName && ParseCategory(r.category) == Some(category)
      ensures description == r.description && unit == r.unit
      ensures quantity == r.quantity && minimumStock == r.minimumStock && unitPrice == r.unitPrice
      ensures supplier == r.supplier && location == r.location
      ensures status == DetermineStatus(r.quantity, r.minimumStock)
    {
      this.id := id;
      this.itemCode := itemCode;
      itemName := r.itemName;
      category := ParseCategory(r.category).value;
      description := r.description;
      unit := r.unit;
      quantity := r.quantity;
      minimumStock := r.minimumStock;
      unitPrice := r.unitPrice;
      supplier := r.supplier;
      location := r.location;
      status := DetermineStatus(r.quantity, r.minimumStock);
    }

    /**
     * `update`: a request that breaks a rule changes nothing; an accepted one rewrites the
     * descriptive fields and the minimum stock, keeps the quantity and the item code, and
     * re-derives the status from the kept quantity and the new minimum.
     */
    method Update(c: ItemChanges) returns (ok: bool)
      modifies this
      ensures ok == UpdateRulesHold(c)
      ensures !ok ==> unchanged(this)
      ensures ok ==> Valid()
      ensures ok ==> quantity == old(quantity) && itemCode == old(itemCode)
      ensures ok ==> itemName == c.itemName && ParseCategory(c.category) == Some(category)
      ensures ok ==> description == c.description && unit == c.unit
      ensures ok ==> minimumStock == c.minimumStock && unitPrice == c.unitPrice
      ensures ok ==> supplier == c.supplier && location == c.location
      ensures ok ==> status == DetermineStatus(old(quantity), c.minimumStock)
    {
      ok := UpdateRulesHold(c);
      if ok {
        itemName := c.itemName;
        category := ParseCategory(c.category).value;
        description := c.description;
        unit := c.unit;
        minimumStock := c.minimumStock;
        unitPrice := c.unitPrice;
        supplier := c.supplier;
        location := c.location;
        status := DetermineStatus(quantity, c.minimumStock);
      }
    }
  }

  /** `store`: a request that breaks a rule creates nothing; a valid one creates the item. */
  method StoreItem(id: nat, itemCode: string, r: NewItem) returns (item: Option<Inventory>)
    ensures item.Some? <==> StoreRulesHold(r)
    ensures item.Some? ==>
      && fresh(item.value) && item.value.Valid() && item.value.id == id
      && item.value.quantity == r.quantity && item.value.minimumStock == r.minimumStock
      && item.value.status == DetermineStatus(r.quantity, r.minimumStock)
  {
    if !StoreRulesHold(r) {
      return None;
    }
    var created := new Inventory.Store(id, itemCode, r);
    item := Some(created);
  }
}
