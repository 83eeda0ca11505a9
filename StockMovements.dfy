/**
 * The stock ledger of one inventory item (StockMovementController): recording a
 * movement (`store`) applies its signed quantity to the item and re-derives the
 * item's status, and an `out` movement for a project charges the material cost to
 * that project; deleting a movement (`destroy`) reverses both, the project cost
 * never dropping below zero. Each action is atomic: a refused or failed action
 * leaves the item, the movement list and the project costs as they were.
 */
module StockMovements {
  import opened Results
  import opened PhpStrings
  import opened Calendar
  import opened Inventories

  datatype MovementType = In | Out | Adjustment

  type ProjectId = nat

  /** A row of the stock_movements table. */
  datatype StockMovement = StockMovement(
    id: nat, inventoryId: nat, projectId: Option<ProjectId>, movementType: MovementType,
    quantity: real, referenceNumber: string, notes: Option<string>, createdBy: nat)

  /** The fields `store` validates (the item itself is the ledger's). */
  datatype MovementRequest = MovementRequest(
    projectId: Option<ProjectId>, movementType: MovementType, quantity: real,
    referenceNumber: Option<string>, notes: Option<string>)

  datatype StockError =
    | InvalidRequest
    | InsufficientStock(available: real)
    | MovementNotFound

  /**
   * The validation of `store`: a quantity of at least 0.01, a reference number of at most
   * 100 characters, and a project that exists. The source spells the last rule
   * `exists:project,id` (the table is `projects`) and the item rule `exist:` instead of
   * `exists:`; the model follows the evident intent of both.
   */
  predicate RequestRulesHold(req: MovementRequest, projectCosts: map<ProjectId, real>) {
    && req.quantity >= 0.01
    && (req.referenceNumber.Some? ==> |req.referenceNumber.value| <= 100)
    && (req.projectId.Some? ==> req.projectId.value in projectCosts)
  }

  /** `generateReferenceNumber`, with today's date and today's movement count passed in. */
  function ReferenceNumber(today: Date, countToday: nat): (r: string)
    ensures |r| >= 2 && r[..2] == "SM"
  {
    "SM" + (FormatYmd(today) + SequenceNumber(countToday + 1))
  }

  /** `str_pad($n, 4, '0', STR_PAD_LEFT)`: today's sequence number in at least four digits. */
  function SequenceNumber(n: nat): (s: string)
    ensures |s| >= 4
  {
    StrPadLeft(IntToString(n), 4, '0')
  }

  /** The sequence number reads back as itself. */
  lemma SequenceNumberValue(n: nat)
    ensures IntVal(SequenceNumber(n)) == n
  {
    PaddedNatValue(n, 4);
  }

  /** A reference number is `SM`, the date as YYYYMMDD, then today's sequence number. */
  lemma ReferenceNumberParts(today: Date, countToday: nat)
    requires today.year < 10000 && today.month < 100 && today.day < 100
    ensures var r := ReferenceNumber(today, countToday);
      |r| >= 14 && r[2..10] == FormatYmd(today) && IntVal(r[10..]) == countToday + 1
  {
    FormatYmdLength(today);
    SequenceNumberValue(countToday + 1);
    ThreeParts("SM", FormatYmd(today), SequenceNumber(countToday + 1));
  }

  /** The middle and the tail of a concatenation of a two- and an eight-character string with a rest. */
  lemma ThreeParts(a: string, b: string, c: string)
    requires |a| == 2 && |b| == 8
    ensures |a + (b + c)| == 10 + |c| && (a + (b + c))[2..10] == b && (a + (b + c))[10..] == c
  {
  }

  /** The signed effect a recorded movement has on the stock. */
  function Delta(t: MovementType, quantity: real): real {
    if t == Out then -quantity else quantity
  }

  /** The accept rule of `store`: an `out` may not take more than is on hand. */
  predicate StockSuffices(onHand: real, t: MovementType, quantity: real)
    ensures t != Out ==> StockSuffices(onHand, t, quantity)
    ensures t == Out ==> (StockSuffices(onHand, t, quantity) <==> quantity <= onHand)
  {
    !(t == Out && onHand < quantity)
  }

  /** The `switch` of `store`: `in` and `adjustment` add, `out` subtracts. */
  function QuantityAfterStore(onHand: real, t: MovementType, quantity: real): (r: real)
    ensures r == onHand + Delta(t, quantity)
  {
    match t
    case In => onHand + quantity
    case Adjustment => onHand + quantity
    case Out => onHand - quantity
  }

  /** The `switch` of `destroy`: the opposite of recording. */
  function QuantityAfterDestroy(onHand: real, t: MovementType, quantity: real): (r: real)
    ensures r == onHand - Delta(t, quantity)
  {
    match t
    case In => onHand - quantity
    case Adjustment => onHand - quantity
    case Out => onHand + quantity
  }

  /** An accepted movement of a positive quantity never leaves a non-negative stock negative. */
  lemma AcceptedStoreKeepsStock(onHand: real, t: MovementType, quantity: real)
    requires onHand >= 0.0 && quantity > 0.0 && StockSuffices(onHand, t, quantity)
    ensures QuantityAfterStore(onHand, t, quantity) >= 0.0
    ensures t != Out ==> QuantityAfterStore(onHand, t, quantity) > onHand
  {
  }

  /**
   * Deleting an `in` or `adjustment` movement is not checked against the stock: the
   * quantity can become negative, and the item is then out of stock.
   */
  lemma DestroyCanGoNegative(onHand: real, minimumStock: real, t: MovementType, quantity: real)
    requires t != Out && quantity > onHand
    ensures QuantityAfterDestroy(onHand, t, quantity) < 0.0
    ensures DetermineStatus(QuantityAfterDestroy(onHand, t, quantity), minimumStock) == OutOfStock
  {
  }

  function Max(a: real, b: real): real {
    if a >= b then a else b
  }

  /** The project charge of `store`: only an `out` movement for a project adds its material cost. */
  function CostsAfterStore(costs: map<ProjectId, real>, t: MovementType, project: Option<ProjectId>, materialCost: real): (r: map<ProjectId, real>)
    requires t == Out && project.Some? ==> project.value in costs
    ensures r.Keys == costs.Keys
    ensures forall p :: p in costs && !(t == Out && project == Some(p)) ==> r[p] == costs[p]
    ensures t == Out && project.Some? ==> r[project.value] == costs[project.value] + materialCost
  {
    if t == Out && project.Some? then costs[project.value := costs[project.value] + materialCost]
    else costs
  }

  /** The project refund of `destroy`: `max(0, actual_cost - material cost)`, never negative. */
  function CostsAfterDestroy(costs: map<ProjectId, real>, t: MovementType, project: Option<ProjectId>, materialCost: real): (r: map<ProjectId, real>)
    requires t == Out && project.Some? ==> project.value in costs
    ensures r.Keys == costs.Keys
    ensures forall p :: p in costs && !(t == Out && project == Some(p)) ==> r[p] == costs[p]
    ensures t == Out && project.Some? ==>
      r[project.value] >= 0.0 && r[project.value] >= costs[project.value] - materialCost
      && (r[project.value] == 0.0 || r[project.value] == costs[project.value] - materialCost)
  {
    if t == Out && project.Some? then costs[project.value := Max(0.0, costs[project.value] - materialCost)]
    else costs
  }

  /** The ids of a list of movements. */
  function Ids(ms: seq<StockMovement>): (r: set<nat>)
    ensures forall m :: m in ms ==> m.id in r
  {
    if ms == [] then {} else {ms[0].id} + Ids(ms[1..])
  }

  /** No two movements share an id. */
  predicate UniqueIds(ms: seq<StockMovement>) {
    ms == [] || (ms[0].id !in Ids(ms[1..]) && UniqueIds(ms[1..]))
  }

  /** The net effect of a list of movements on the stock. */
  function NetDelta(ms: seq<StockMovement>): real {
    if ms == [] then 0.0 else Delta(ms[0].movementType, ms[0].quantity) + NetDelta(ms[1..])
  }

  /** The movement with the given id, as route-model binding finds it. */
  function Find(ms: seq<StockMovement>, id: nat): (r: Option<StockMovement>)
    ensures r.Some? <==> id in Ids(ms)
    ensures r.Some? ==> r.value in ms && r.value.id == id
  {
    if ms == [] then None
    else if ms[0].id == id then Some(ms[0])
    else Find(ms[1..], id)
  }

  /** The list once the movement with the given id is deleted. */
  function Without(ms: seq<StockMovement>, id: nat): (r: seq<StockMovement>)
    ensures Ids(r) == Ids(ms) - {id}
    ensures forall m :: m in r ==> m in ms
    ensures UniqueIds(ms) ==> UniqueIds(r)
    ensures id !in Ids(ms) ==> r == ms
  {
    if ms == [] then []
    else if ms[0].id == id then Without(ms[1..], id)
    else [ms[0]] + Without(ms[1..], id)
  }

  /** Appending a movement: its id joins the ids and its delta joins the net effect. */
  lemma {:induction false} AppendMovement(ms: seq<StockMovement>, m: StockMovement)
    ensures Ids(ms + [m]) == Ids(ms) + {m.id}
    ensures NetDelta(ms + [m]) == NetDelta(ms) + Delta(m.movementType, m.quantity)
    ensures UniqueIds(ms) && m.id !in Ids(ms) ==> UniqueIds(ms + [m])
  {
    if ms != [] {
      assert (ms + [m])[1..] == ms[1..] + [m];
      AppendMovement(ms[1..], m);
    } else {
      assert ms + [m] == [m];
      assert [m][1..] == [];
    }
  }

  /** Deleting a movement whose id is unique removes exactly its delta. */
  lemma {:induction false} NetDeltaWithout(ms: seq<StockMovement>, m: StockMovement)
    requires UniqueIds(ms) && m in ms
    ensures NetDelta(Without(ms, m.id)) == NetDelta(ms) - Delta(m.movementType, m.quantity)
  {
    if ms[0].id == m.id {
      assert m == ms[0];
      assert Without(ms[1..], m.id) == ms[1..];
    } else {
      assert m in ms[1..];
      NetDeltaWithout(ms[1..], m);
    }
  }

  /** Deleting the movement just appended gives back the list as it was. */
  lemma {:induction false} WithoutLastAppended(ms: seq<StockMovement>, m: StockMovement)
    requires m.id !in Ids(ms)
    ensures Without(ms + [m], m.id) == ms
  {
    if ms == [] {
      assert [m][1..] == [];
    } else {
      assert (ms + [m])[1..] == ms[1..] + [m];
      WithoutLastAppended(ms[1..], m);
      assert [ms[0]] + ms[1..] == ms;
    }
  }

  /**
   * `destroy` undoes `store`: recording movement `m` and deleting it again restores the
   * quantity, the status, the movement list and (at an unchanged unit price) every
   * project cost, as long as the costs were not negative.
   */
  lemma DestroyUndoesStore(
    onHand: real, minimumStock: real, unitPrice: real,
    ms: seq<StockMovement>, costs: map<ProjectId, real>, m: StockMovement)
    requires m.id !in Ids(ms)
    requires m.movementType == Out && m.projectId.Some? ==> m.projectId.value in costs
    requires forall p :: p in costs ==> costs[p] >= 0.0
    ensures var q := QuantityAfterDestroy(QuantityAfterStore(onHand, m.movementType, m.quantity), m.movementType, m.quantity);
      q == onHand && DetermineStatus(q, minimumStock) == DetermineStatus(onHand, minimumStock)
    ensures Without(ms + [m], m.id) == ms
    ensures var cost := MaterialCost(unitPrice, m.quantity);
      CostsAfterDestroy(CostsAfterStore(costs, m.movementType, m.projectId, cost), m.movementType, m.projectId, cost) == costs
  {
    WithoutLastAppended(ms, m);
  }

  /** A movement as `store` records it: for this item, of a positive quantity, for a known project. */
  predicate Recorded(m: StockMovement, inventoryId: nat, projects: set<ProjectId>) {
    m.inventoryId == inventoryId && m.quantity > 0.0
    && (m.projectId.Some? ==> m.projectId.value in projects)
  }

  /** The bookkeeping of a movement list: unique ids below the next id, and every movement recorded. */
  ghost predicate MovementsHold(ms: seq<StockMovement>, nextId: nat, inventoryId: nat, projects: set<ProjectId>) {
    && UniqueIds(ms)
    && (forall id :: id in Ids(ms) ==> id < nextId)
    && (forall m :: m in ms ==> Recorded(m, inventoryId, projects))
  }

  ghost predicate CostsNonNegative(costs: map<ProjectId, real>) {
    forall p :: p in costs ==> costs[p] >= 0.0
  }

  /** Appending a recorded movement under the next id keeps the bookkeeping. */
  lemma AppendKeeps(ms: seq<StockMovement>, nextId: nat, inventoryId: nat, projects: set<ProjectId>, m: StockMovement)
    requires MovementsHold(ms, nextId, inventoryId, projects)
    requires m.id == nextId && Recorded(m, inventoryId, projects)
    ensures MovementsHold(ms + [m], nextId + 1, inventoryId, projects)
    ensures NetDelta(ms + [m]) == NetDelta(ms) + Delta(m.movementType, m.quantity)
  {
    AppendMovement(ms, m);
  }

  /** Deleting a movement keeps the bookkeeping and removes exactly its delta. */
  lemma WithoutKeeps(ms: seq<StockMovement>, nextId: nat, inventoryId: nat, projects: set<ProjectId>, m: StockMovement)
    requires MovementsHold(ms, nextId, inventoryId, projects) && m in ms
    ensures MovementsHold(Without(ms, m.id), nextId, inventoryId, projects)
    ensures NetDelta(Without(ms, m.id)) == NetDelta(ms) - Delta(m.movementType, m.quantity)
  {
    NetDeltaWithout(ms, m);
  }

  /** The cost `store` charges: `unit_price * quantity`. */
  function MaterialCost(unitPrice: real, quantity: real): (c: real)
    ensures unitPrice >= 0.0 && quantity >= 0.0 ==> c >= 0.0
  {
    unitPrice * quantity
  }

  /** Charging a non-negative material cost, or refunding one with the clamp, keeps every cost non-negative. */
  lemma CostsStayNonNegative(costs: map<ProjectId, real>, t: MovementType, project: Option<ProjectId>, materialCost: real)
    requires CostsNonNegative(costs) && materialCost >= 0.0
    requires t == Out && project.Some? ==> project.value in costs
    ensures CostsNonNegative(CostsAfterStore(costs, t, project, materialCost))
    ensures CostsNonNegative(CostsAfterDestroy(costs, t, project, materialCost))
  {
  }

  class StockLedger {
    /** The item whose stock this ledger keeps. */
    const inventory: Inventory
    /** Its live (not deleted) stock movements, oldest first. */
    var movements: seq<StockMovement>
    /** `actual_cost` of every project. */
    var projectCosts: map<ProjectId, real>
    /** The id the next recorded movement receives. */
    var nextId: nat
    /** The quantity the item was created with. */
    ghost const openingQuantity: real

    /**
     * The ledger's invariant: the item is well formed, movement ids are unique and
     * fresh ids lie above them, project costs are not negative, and the quantity on
     * hand is the opening quantity plus the net effect of the live movements.
     */
    ghost predicate Valid()
      reads this, inventory
    {
      && inventory.Valid()
      && MovementsHold(movements, nextId, inventory.id, projectCosts.Keys)
      && CostsNonNegative(projectCosts)
      && inventory.quantity == openingQuantity + NetDelta(movements)
    }

    /** A freshly stored item has no movements yet. */
    constructor (inventory: Inventory, projectCosts: map<ProjectId, real>)
      requires inventory.Valid()
      requires CostsNonNegative(projectCosts)
      ensures Valid()
      ensures this.inventory == inventory && this.projectCosts == projectCosts
      ensures movements == [] && openingQuantity == inventory.quantity
    {
      this.inventory := inventory;
      this.projectCosts := projectCosts;
      movements := [];
      nextId := 0;
      openingQuantity := inventory.quantity;
    }

    /**
     * `store`: a request that breaks a validation rule, or an `out` larger than the stock
     * on hand, is refused and changes nothing. An accepted movement is appended, applied
     * to the quantity, the status is re-derived, and an `out` for a project charges
     * `unit_price * quantity` to that project. The movement is created by the user
     * `authId`, or by user 1 when nobody is signed in, and keeps the request's reference
     * number or else `generatedReference`, the `ReferenceNumber` for today's date and
     * today's movement count, which the controller reads from the database.
     */
    method Store(req: MovementRequest, generatedReference: string, authId: Option<nat>)
      returns (r: Result<StockMovement, StockError>)
      requires Valid()
      modifies this, inventory`quantity, inventory`status
      ensures Valid()
      ensures r.Err? ==> unchanged(this) && unchanged(inventory)
      ensures !RequestRulesHold(req, old(projectCosts)) ==> r == Err(InvalidRequest)
      ensures RequestRulesHold(req, old(projectCosts)) && !StockSuffices(old(inventory.quantity), req.movementType, req.quantity) ==>
        r == Err(InsufficientStock(old(inventory.quantity)))
      ensures RequestRulesHold(req, old(projectCosts)) && StockSuffices(old(inventory.quantity), req.movementType, req.quantity) ==>
        r.Ok?
      ensures r.Ok? ==>
        && r.value == StockMovement(
             old(nextId), inventory.id, req.projectId, req.movementType, req.quantity,
             req.referenceNumber.GetOr(generatedReference), req.notes, authId.GetOr(1))
        && movements == old(movements) + [r.value]
        && inventory.quantity == QuantityAfterStore(old(inventory.quantity), req.movementType, req.quantity)
        && inventory.status == DetermineStatus(inventory.quantity, inventory.minimumStock)
        && projectCosts == CostsAfterStore(old(projectCosts), req.movementType, req.projectId, MaterialCost(inventory.unitPrice, req.quantity))
    {
      if !RequestRulesHold(req, projectCosts) {
        return Err(InvalidRequest);
      }
      if req.movementType == Out && inventory.quantity < req.quantity {
        return Err(InsufficientStock(inventory.quantity));
      }

      var movement := Record(req, req.referenceNumber.GetOr(generatedReference), authId.GetOr(1));
      r := Ok(movement);
    }

    /** The write half of `store`, once the request is accepted. */
    method Record(req: MovementRequest, reference: string, createdBy: nat) returns (movement: StockMovement)
      requires Valid()
      requires RequestRulesHold(req, projectCosts) && StockSuffices(inventory.quantity, req.movementType, req.quantity)
      modifies this, inventory`quantity, inventory`status
      ensures Valid()
      ensures movement == StockMovement(
        old(nextId), inventory.id, req.projectId, req.movementType, req.quantity, reference, req.notes, createdBy)
      ensures movements == old(movements) + [movement]
      ensures inventory.quantity == QuantityAfterStore(old(inventory.quantity), req.movementType, req.quantity)
      ensures inventory.status == DetermineStatus(inventory.quantity, inventory.minimumStock)
      ensures projectCosts == CostsAfterStore(old(projectCosts), req.movementType, req.projectId, MaterialCost(inventory.unitPrice, req.quantity))
    {
      var newQuantity := QuantityAfterStore(inventory.quantity, req.movementType, req.quantity);
      inventory.quantity := newQuantity;
      inventory.status := DetermineStatus(newQuantity, inventory.minimumStock);

      movement := StockMovement(
        nextId, inventory.id, req.projectId, req.movementType, req.quantity,
        reference, req.notes, createdBy);
      AppendKeeps(movements, nextId, inventory.id, projectCosts.Keys, movement);
      movements := movements + [movement];
      nextId := nextId + 1;

      var materialCost := MaterialCost(inventory.unitPrice, req.quantity);
      CostsStayNonNegative(projectCosts, req.movementType, req.projectId, materialCost);
      if req.movementType == Out && req.projectId.Some? {
        var project := req.projectId.value;
        projectCosts := projectCosts[project := projectCosts[project] + materialCost];
      }
      assert projectCosts == CostsAfterStore(old(projectCosts), req.movementType, req.projectId, materialCost);
    }

    /**
     * `destroy`: deleting a movement that is not in the ledger is refused. Otherwise the
     * movement is removed and its effect on the quantity reversed without any stock check,
     * the status is re-derived, and for an `out` movement of a project the material cost
     * at the item's current unit price is taken back, clamped at zero.
     */
    method Destroy(id: nat) returns (r: Result<StockMovement, StockError>)
      requires Valid()
      modifies this, inventory`quantity, inventory`status
      ensures Valid()
      ensures r.Err? <==> Find(old(movements), id).None?
      ensures r.Err? ==> r.error == MovementNotFound && unchanged(this) && unchanged(inventory)
      ensures r.Ok? ==>
        && Find(old(movements), id) == Some(r.value)
        && movements == Without(old(movements), id)
        && nextId == old(nextId)
        && inventory.quantity == QuantityAfterDestroy(old(inventory.quantity), r.value.movementType, r.value.quantity)
        && inventory.status == DetermineStatus(inventory.quantity, inventory.minimumStock)
        && projectCosts == CostsAfterDestroy(old(projectCosts), r.value.movementType, r.value.projectId, MaterialCost(inventory.unitPrice, r.value.quantity))
    {
      var found := Find(movements, id);
      if found.None? {
        return Err(MovementNotFound);
      }
      Reverse(found.value);
      r := Ok(found.value);
    }

    /** The write half of `destroy`, for a movement of the ledger. */
    method Reverse(movement: StockMovement)
      requires Valid() && movement in movements
      modifies this, inventory`quantity, inventory`status
      ensures Valid()
      ensures movements == Without(old(movements), movement.id)
      ensures nextId == old(nextId)
      ensures inventory.quantity == QuantityAfterDestroy(old(inventory.quantity), movement.movementType, movement.quantity)
      ensures inventory.status == DetermineStatus(inventory.quantity, inventory.minimumStock)
      ensures projectCosts == CostsAfterDestroy(old(projectCosts), movement.movementType, movement.projectId, MaterialCost(inventory.unitPrice, movement.quantity))
    {
      inventory.quantity := QuantityAfterDestroy(inventory.quantity, movement.movementType, movement.quantity);
      inventory.status := DetermineStatus(inventory.quantity, inventory.minimumStock);

      var materialCost := MaterialCost(inventory.unitPrice, movement.quantity);
      CostsStayNonNegative(projectCosts, movement.movementType, movement.projectId, materialCost);
      if movement.movementType == Out && movement.projectId.Some? {
        var project := movement.projectId.value;
        projectCosts := projectCosts[project := Max(0.0, projectCosts[project] - materialCost)];
      }
      assert projectCosts == CostsAfterDestroy(old(projectCosts), movement.movementType, movement.projectId, materialCost);

      WithoutKeeps(movements, nextId, inventory.id, old(projectCosts).Keys, movement);
      movements := Without(movements, movement.id);
    }

    /**
     * InventoryController `update` on the ledger's item: the quantity is not among the
     * validated fields, so the ledger's balance survives every edit.
     */
    method UpdateInventory(c: ItemChanges) returns (ok: bool)
      requires Valid()
      modifies inventory
      ensures Valid()
      ensures ok == UpdateRulesHold(c)
      ensures inventory.quantity == old(inventory.quantity)
      ensures ok ==> inventory.status == DetermineStatus(inventory.quantity, c.minimumStock)
    {
      ok := inventory.Update(c);
    }
  }

  /** Recording a movement and deleting it again leaves the item and the ledger as they were. */
  method StoreThenDestroy(ledger: StockLedger, req: MovementRequest, generatedReference: string, authId: Option<nat>)
    requires ledger.Valid()
    modifies ledger, ledger.inventory`quantity, ledger.inventory`status
    ensures ledger.Valid()
    ensures ledger.inventory.quantity == old(ledger.inventory.quantity)
    ensures ledger.inventory.status == old(ledger.inventory.status)
    ensures ledger.movements == old(ledger.movements)
    ensures ledger.projectCosts == old(ledger.projectCosts)
  {
    ghost var quantity0, costs0, movements0 := ledger.inventory.quantity, ledger.projectCosts, ledger.movements;
    var stored := ledger.Store(req, generatedReference, authId);
    if stored.Ok? {
      var m := stored.value;
      assert m.id !in Ids(movements0);
      DestroyUndoesStore(quantity0, ledger.inventory.minimumStock, ledger.inventory.unitPrice, movements0, costs0, m);
      AppendMovement(movements0, m);
      assert Find(ledger.movements, m.id) == Some(m);
      var destroyed := ledger.Destroy(m.id);
    }
  }

  /**
   * An item with 10 on hand and a minimum of 5: taking out 7 leaves 3 and a low stock;
   * taking out 5 more is refused.
   */
  method LowStockScenario(costs: map<ProjectId, real>)
    returns (first: Result<StockMovement, StockError>, second: Result<StockMovement, StockError>,
             quantity: real, status: StockStatus)
    requires CostsNonNegative(costs)
    ensures first.Ok? && first.value.quantity == 7.0 && first.value.movementType == Out
    ensures second == Err(InsufficientStock(3.0))
    ensures quantity == 3.0 && status == LowStock
  {
    var item := new Inventory.Store(1, "INV001", NewItem("Cable", "electrical", None, "m", 10.0, 5.0, 2.0, None, None));
    var ledger := new StockLedger(item, costs);
    first := ledger.Store(MovementRequest(None, Out, 7.0, None, None), "SM202401150001", None);
    assert item.quantity == 3.0 && item.status == LowStock;
    second := ledger.Store(MovementRequest(None, Out, 5.0, None, None), "SM202401150002", None);
    quantity, status := item.quantity, item.status;
  }
}
