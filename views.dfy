/** The inventory-move endpoint and the total computed by the sales-order form.

    The move is specified by the function Move on a snapshot of the tables it touches;
    the class InventoryDb performs the same steps in place and is proved to end in the
    state Move describes. */
module Views {
  import opened Wrappers
  import opened InventoryModels
  import Serializers
  import opened OrderModels

  datatype MoveResponse = Moved(inventoryId: nat) | NotFound(error: string) | BadRequest(error: string)
  {
    function Status(): nat {
      match this
      case Moved(_) => 200
      case NotFound(_) => 404
      case BadRequest(_) => 400
    }
  }

  const WarehouseMissing := "Warehouse does not exist"
  const ProductMissing := "Product does not exist"
  const SourceRowMissing := "Product does not exist in the from warehouse"
  const NotEnoughStock := "Not enough quantity in the from warehouse"

  /** The warehouse ids, product ids, inventory rows and the next row id the database
      will hand out. */
  datatype InventoryState = InventoryState(warehouses: set<int>, products: set<int>, rows: seq<InventoryRow>, nextRowId: nat)

  /** Keys are unique, ids are below the next id and distinct, and every row refers to
      an existing warehouse and product. */
  predicate WellFormed(s: InventoryState) {
    && UniqueKeys(s.rows)
    && (forall i :: 0 <= i < |s.rows| ==> s.rows[i].id < s.nextRowId)
    && (forall i, j :: 0 <= i < j < |s.rows| ==> s.rows[i].id != s.rows[j].id)
    && (forall i :: 0 <= i < |s.rows| ==> s.rows[i].warehouse in s.warehouses && s.rows[i].product in s.products)
  }

  datatype MoveOutcome = MoveOutcome(response: MoveResponse, state: InventoryState)

  datatype Placement = Placement(rows: seq<InventoryRow>, index: nat, nextRowId: nat)

  /** get_or_create with quantity 0 as the default: an existing row of the pair is
      returned with the table as it was; otherwise a row of the pair at quantity 0 with
      the next id is appended and returned. */
  function GetOrCreate(rows: seq<InventoryRow>, product: int, warehouse: int, nextRowId: nat): (p: Placement)
    ensures p.index < |p.rows| && RowFor(p.rows[p.index], product, warehouse)
    ensures FindRow(rows, product, warehouse).Some? ==>
      p.rows == rows && p.index == FindRow(rows, product, warehouse).value && p.nextRowId == nextRowId
    ensures FindRow(rows, product, warehouse).None? ==>
      && p.rows == rows + [InventoryRow(nextRowId, product, warehouse, 0)]
      && p.index == |rows|
      && p.nextRowId == nextRowId + 1
  {
    match FindRow(rows, product, warehouse)
    case Some(k) => Placement(rows, k, nextRowId)
    case None => Placement(rows + [InventoryRow(nextRowId, product, warehouse, 0)], |rows|, nextRowId + 1)
  }

  /** The source row after `quantity` is taken from it. */
  function Drain(rows: seq<InventoryRow>, i: nat, quantity: int): seq<InventoryRow>
    requires i < |rows|
  {
    rows[i := rows[i].(quantity := rows[i].quantity - quantity)]
  }

  /** The destination row after `quantity` is added to it. */
  function Fill(rows: seq<InventoryRow>, j: nat, quantity: int): seq<InventoryRow>
    requires j < |rows|
  {
    rows[j := rows[j].(quantity := rows[j].quantity + quantity)]
  }

  /** The write part of the move, once the source row i has been found and checked. */
  function Transfer(s: InventoryState, i: nat, data: Serializers.MoveData): MoveOutcome
    requires i < |s.rows|
  {
    var dest := GetOrCreate(Drain(s.rows, i, data.quantity), data.product, data.toWarehouse, s.nextRowId);
    var filled := Fill(dest.rows, dest.index, data.quantity);
    MoveOutcome(Moved(filled[dest.index].id), s.(rows := filled, nextRowId := dest.nextRowId))
  }

  /** InventoryMoveView.post. A refused request leaves the state as it was; any request
      keeps warehouses and products and adds at most one inventory row. */
  function Move(s: InventoryState, req: Serializers.MoveData): (out: MoveOutcome)
    ensures !out.response.Moved? ==> out.state == s
    ensures out.state.warehouses == s.warehouses && out.state.products == s.products
    ensures |s.rows| <= |out.state.rows| <= |s.rows| + 1
  {
    match Serializers.Validate(req)
    case Failure(e) => MoveOutcome(BadRequest(e), s)
    case Success(data) =>
      if data.fromWarehouse !in s.warehouses || data.toWarehouse !in s.warehouses then
        MoveOutcome(NotFound(WarehouseMissing), s)
      else if data.product !in s.products then
        MoveOutcome(NotFound(ProductMissing), s)
      else
        match FindRow(s.rows, data.product, data.fromWarehouse)
        case None => MoveOutcome(NotFound(SourceRowMissing), s)
        case Some(i) =>
          if s.rows[i].quantity < data.quantity then MoveOutcome(BadRequest(NotEnoughStock), s)
          else Transfer(s, i, data)
  }

  /** The conditions under which a move goes through. */
  predicate CanMove(s: InventoryState, req: Serializers.MoveData) {
    && req.fromWarehouse != req.toWarehouse
    && req.fromWarehouse in s.warehouses && req.toWarehouse in s.warehouses
    && req.product in s.products
    && FindRow(s.rows, req.product, req.fromWarehouse).Some?
    && QuantityAt(s.rows, req.product, req.fromWarehouse) >= req.quantity
  }

  /** Each refusal, in the order the endpoint checks for it: the same warehouse twice
      (400), an unknown warehouse (404, checked before the product), an unknown product
      (404), no stock row in the source warehouse (404), too little stock (400). A move
      succeeds exactly when none applies, and a refused move changes nothing. */
  lemma MoveOutcomes(s: InventoryState, req: Serializers.MoveData)
    ensures req.fromWarehouse == req.toWarehouse ==>
      Move(s, req).response == BadRequest(Serializers.SameWarehouseError)
    ensures (&& req.fromWarehouse != req.toWarehouse
             && (req.fromWarehouse !in s.warehouses || req.toWarehouse !in s.warehouses)) ==>
      Move(s, req).response == NotFound(WarehouseMissing)
    ensures (&& req.fromWarehouse != req.toWarehouse
             && req.fromWarehouse in s.warehouses && req.toWarehouse in s.warehouses
             && req.product !in s.products) ==>
      Move(s, req).response == NotFound(ProductMissing)
    ensures (&& req.fromWarehouse != req.toWarehouse
             && req.fromWarehouse in s.warehouses && req.toWarehouse in s.warehouses
             && req.product in s.products
             && FindRow(s.rows, req.product, req.fromWarehouse).None?) ==>
      Move(s, req).response == NotFound(SourceRowMissing)
    ensures (&& req.fromWarehouse != req.toWarehouse
             && req.fromWarehouse in s.warehouses && req.toWarehouse in s.warehouses
             && req.product in s.products
             && FindRow(s.rows, req.product, req.fromWarehouse).Some?
             && QuantityAt(s.rows, req.product, req.fromWarehouse) < req.quantity) ==>
      Move(s, req).response == BadRequest(NotEnoughStock)
    ensures Move(s, req).response.Moved? <==> CanMove(s, req)
    ensures !Move(s, req).response.Moved? ==> Move(s, req).state == s
  {
  }

  /** Lookups are decided by keys alone, so changing quantities does not move a row. */
  lemma {:induction false} FindRowSameKeys(a: seq<InventoryRow>, b: seq<InventoryRow>, product: int, warehouse: int)
    requires |a| == |b|
    requires forall k :: 0 <= k < |a| ==> a[k].product == b[k].product && a[k].warehouse == b[k].warehouse
    ensures FindRow(a, product, warehouse) == FindRow(b, product, warehouse)
  {
    if a != [] {
      FindRowSameKeys(a[..|a| - 1], b[..|b| - 1], product, warehouse);
    }
  }

  lemma FindRowAppend(rows: seq<InventoryRow>, r: InventoryRow, product: int, warehouse: int)
    ensures FindRow(rows + [r], product, warehouse)
         == if RowFor(r, product, warehouse) then Some(|rows|) else FindRow(rows, product, warehouse)
  {
    assert (rows + [r])[..|rows|] == rows;
  }

  /** The rows of a successful move: the source row at i drained, the destination row at
      j (appended when missing) filled, nothing else touched. */
  lemma MoveSteps(s: InventoryState, req: Serializers.MoveData) returns (i: nat, j: nat, created: bool)
    requires CanMove(s, req)
    ensures i < |s.rows| && RowFor(s.rows[i], req.product, req.fromWarehouse)
    ensures FindRow(s.rows, req.product, req.fromWarehouse) == Some(i)
    ensures created <==> FindRow(s.rows, req.product, req.toWarehouse).None?
    ensures created ==> j == |s.rows|
    ensures !created ==> FindRow(s.rows, req.product, req.toWarehouse) == Some(j) && j < |s.rows|
    ensures i != j
    ensures Move(s, req) == Transfer(s, i, req)
    ensures var out := Move(s, req);
      && out.state.warehouses == s.warehouses && out.state.products == s.products
      && |out.state.rows| == (if created then |s.rows| + 1 else |s.rows|)
      && out.state.nextRowId == (if created then s.nextRowId + 1 else s.nextRowId)
      && out.state.rows[i] == s.rows[i].(quantity := s.rows[i].quantity - req.quantity)
      && out.state.rows[j] == (if created then InventoryRow(s.nextRowId, req.product, req.toWarehouse, req.quantity)
                               else s.rows[j].(quantity := s.rows[j].quantity + req.quantity))
      && out.response == Moved(out.state.rows[j].id)
      && (forall k :: 0 <= k < |s.rows| && k != i && k != j ==> out.state.rows[k] == s.rows[k])
  {
    i := FindRow(s.rows, req.product, req.fromWarehouse).value;
    var drained := Drain(s.rows, i, req.quantity);
    FindRowSameKeys(s.rows, drained, req.product, req.toWarehouse);
    var dest := GetOrCreate(drained, req.product, req.toWarehouse, s.nextRowId);
    j := dest.index;
    created := FindRow(s.rows, req.product, req.toWarehouse).None?;
  }

  /** A successful move takes exactly `quantity` from the source row and adds exactly
      `quantity` to the destination row, which is created at 0 first when missing; the
      source row stays in the table even when it reaches 0, and the response carries the
      destination row's id. */
  lemma MoveTransfersQuantity(s: InventoryState, req: Serializers.MoveData)
    requires CanMove(s, req)
    ensures var out := Move(s, req);
      && QuantityAt(out.state.rows, req.product, req.fromWarehouse)
           == QuantityAt(s.rows, req.product, req.fromWarehouse) - req.quantity
      && QuantityAt(out.state.rows, req.product, req.toWarehouse)
           == QuantityAt(s.rows, req.product, req.toWarehouse) + req.quantity
      && FindRow(out.state.rows, req.product, req.fromWarehouse).Some?
      && FindRow(out.state.rows, req.product, req.toWarehouse).Some?
      && out.response == Moved(out.state.rows[FindRow(out.state.rows, req.product, req.toWarehouse).value].id)
      && (FindRow(s.rows, req.product, req.toWarehouse).None? ==>
            out.response == Moved(s.nextRowId) && out.state.nextRowId == s.nextRowId + 1)
  {
    var i, j, created := MoveSteps(s, req);
    var out := Move(s, req);
    var n := |s.rows|;
    FindRowSameKeys(out.state.rows[..n], s.rows, req.product, req.fromWarehouse);
    FindRowSameKeys(out.state.rows[..n], s.rows, req.product, req.toWarehouse);
    if created {
      assert out.state.rows == out.state.rows[..n] + [out.state.rows[n]];
      FindRowAppend(out.state.rows[..n], out.state.rows[n], req.product, req.fromWarehouse);
      FindRowAppend(out.state.rows[..n], out.state.rows[n], req.product, req.toWarehouse);
    } else {
      assert out.state.rows[..n] == out.state.rows;
    }
  }

  /** A successful move leaves every row of any other (product, warehouse) pair as it
      was, keeps every row's key and id, and touches neither warehouses nor products. */
  lemma MoveFrame(s: InventoryState, req: Serializers.MoveData)
    ensures var out := Move(s, req);
      && out.state.warehouses == s.warehouses && out.state.products == s.products
      && |s.rows| <= |out.state.rows| <= |s.rows| + 1
      && (forall k :: 0 <= k < |s.rows| ==>
            && out.state.rows[k].id == s.rows[k].id
            && out.state.rows[k].product == s.rows[k].product
            && out.state.rows[k].warehouse == s.rows[k].warehouse)
      && (forall k :: 0 <= k < |s.rows|
            && !RowFor(s.rows[k], req.product, req.fromWarehouse)
            && !RowFor(s.rows[k], req.product, req.toWarehouse)
            ==> out.state.rows[k] == s.rows[k])
  {
    if CanMove(s, req) {
      var i, j, created := MoveSteps(s, req);
    } else {
      MoveOutcomes(s, req);
    }
  }

  /** Draining or filling a row shifts the totals of that row's product and warehouse
      by the quantity moved. */
  lemma StepProductTotals(rows: seq<InventoryRow>, k: nat, q: int, product: int)
    requires k < |rows|
    ensures ProductTotal(Drain(rows, k, q), product)
         == ProductTotal(rows, product) - (if rows[k].product == product then q else 0)
    ensures ProductTotal(Fill(rows, k, q), product)
         == ProductTotal(rows, product) + (if rows[k].product == product then q else 0)
  {
    assert Drain(rows, k, q) == rows[k := rows[k].(quantity := rows[k].quantity - q)];
    ProductTotalUpdate(rows, k, rows[k].quantity - q, product);
    assert Fill(rows, k, q) == rows[k := rows[k].(quantity := rows[k].quantity + q)];
    ProductTotalUpdate(rows, k, rows[k].quantity + q, product);
  }

  lemma StepWarehouseTotals(rows: seq<InventoryRow>, k: nat, q: int, warehouse: int)
    requires k < |rows|
    ensures WarehouseTotal(Drain(rows, k, q), warehouse)
         == WarehouseTotal(rows, warehouse) - (if rows[k].warehouse == warehouse then q else 0)
    ensures WarehouseTotal(Fill(rows, k, q), warehouse)
         == WarehouseTotal(rows, warehouse) + (if rows[k].warehouse == warehouse then q else 0)
  {
    assert Drain(rows, k, q) == rows[k := rows[k].(quantity := rows[k].quantity - q)];
    WarehouseTotalUpdate(rows, k, rows[k].quantity - q, warehouse);
    assert Fill(rows, k, q) == rows[k := rows[k].(quantity := rows[k].quantity + q)];
    WarehouseTotalUpdate(rows, k, rows[k].quantity + q, warehouse);
  }

  /** Placing the destination row (a new row starts at 0) shifts no total. */
  lemma PlacementTotals(rows: seq<InventoryRow>, p: int, w: int, nextRowId: nat, product: int, warehouse: int)
    ensures ProductTotal(GetOrCreate(rows, p, w, nextRowId).rows, product) == ProductTotal(rows, product)
    ensures WarehouseTotal(GetOrCreate(rows, p, w, nextRowId).rows, warehouse) == WarehouseTotal(rows, warehouse)
  {
    if FindRow(rows, p, w).None? {
      ProductTotalAppend(rows, InventoryRow(nextRowId, p, w, 0), product);
      WarehouseTotalAppend(rows, InventoryRow(nextRowId, p, w, 0), warehouse);
    }
  }

  /** The write part moves `quantity` from the source row to the destination row of the
      same product: no product's total changes, the source warehouse's total drops by
      `quantity` and the destination warehouse's total rises by it. */
  lemma TransferTotals(s: InventoryState, i: nat, data: Serializers.MoveData, product: int, warehouse: int)
    requires i < |s.rows| && RowFor(s.rows[i], data.product, data.fromWarehouse)
    ensures ProductTotal(Transfer(s, i, data).state.rows, product) == ProductTotal(s.rows, product)
    ensures WarehouseTotal(Transfer(s, i, data).state.rows, warehouse)
         == WarehouseTotal(s.rows, warehouse)
            - (if warehouse == data.fromWarehouse then data.quantity else 0)
            + (if warehouse == data.toWarehouse then data.quantity else 0)
  {
    var q := data.quantity;
    var drained := Drain(s.rows, i, q);
    var dest := GetOrCreate(drained, data.product, data.toWarehouse, s.nextRowId);
    StepProductTotals(s.rows, i, q, product);
    StepWarehouseTotals(s.rows, i, q, warehouse);
    PlacementTotals(drained, data.product, data.toWarehouse, s.nextRowId, product, warehouse);
    StepProductTotals(dest.rows, dest.index, q, product);
    StepWarehouseTotals(dest.rows, dest.index, q, warehouse);
  }

  /** A move never changes how much of any product there is in all warehouses together. */
  lemma MoveConservesProductTotals(s: InventoryState, req: Serializers.MoveData, product: int)
    ensures ProductTotal(Move(s, req).state.rows, product) == ProductTotal(s.rows, product)
  {
    if CanMove(s, req) {
      var i, j, created := MoveSteps(s, req);
      TransferTotals(s, i, req, product, 0);
    } else {
      MoveOutcomes(s, req);
    }
  }

  /** A move lowers the source warehouse's total by `quantity`, raises the destination's
      by the same amount, and leaves every other warehouse's total alone. */
  lemma MoveShiftsWarehouseTotals(s: InventoryState, req: Serializers.MoveData, warehouse: int)
    requires CanMove(s, req)
    ensures WarehouseTotal(Move(s, req).state.rows, warehouse)
         == WarehouseTotal(s.rows, warehouse)
            - (if warehouse == req.fromWarehouse then req.quantity else 0)
            + (if warehouse == req.toWarehouse then req.quantity else 0)
  {
    var i, j, created := MoveSteps(s, req);
    TransferTotals(s, i, req, 0, warehouse);
  }

  /** A move keeps the table well formed: keys stay unique, a created row gets a fresh
      id, and rows keep referring to existing warehouses and products. */
  lemma MovePreservesWellFormed(s: InventoryState, req: Serializers.MoveData)
    requires WellFormed(s)
    ensures WellFormed(Move(s, req).state)
  {
    if CanMove(s, req) {
      var i, j, created := MoveSteps(s, req);
      var out := Move(s, req).state;
      if created {
        forall a, b | 0 <= a < b < |out.rows|
          ensures !RowFor(out.rows[b], out.rows[a].product, out.rows[a].warehouse)
        {
          if b == |s.rows| {
            assert FindRow(s.rows, req.product, req.toWarehouse).None?;
            assert !RowFor(s.rows[a], req.product, req.toWarehouse);
          }
        }
      }
    } else {
      MoveOutcomes(s, req);
    }
  }

  /** The non-negative quantity invariant after a successful move holds exactly when the
      destination's old stock plus `quantity` is not negative. The guard only compares
      the source's stock with `quantity`, so a negative quantity is what can break it. */
  lemma MoveNonNegativeIff(s: InventoryState, req: Serializers.MoveData)
    requires WellFormed(s) && NonNegative(s.rows) && CanMove(s, req)
    ensures NonNegative(Move(s, req).state.rows)
        <==> QuantityAt(s.rows, req.product, req.toWarehouse) + req.quantity >= 0
  {
    var i, j, created := MoveSteps(s, req);
    var out := Move(s, req).state;
    assert out.rows[i].quantity >= 0;
    if !created {
      assert QuantityAt(s.rows, req.product, req.toWarehouse) == s.rows[j].quantity;
    }
    if QuantityAt(s.rows, req.product, req.toWarehouse) + req.quantity >= 0 {
      forall k | 0 <= k < |out.rows| ensures out.rows[k].quantity >= 0 {
        if k != i && k != j {
          assert out.rows[k] == s.rows[k];
        }
      }
    } else {
      assert out.rows[j].quantity < 0;
    }
  }

  /** A non-negative quantity keeps every stored quantity non-negative, whatever the
      outcome of the move. */
  lemma MoveKeepsNonNegative(s: InventoryState, req: Serializers.MoveData)
    requires WellFormed(s) && NonNegative(s.rows) && req.quantity >= 0
    ensures NonNegative(Move(s, req).state.rows)
  {
    if CanMove(s, req) {
      MoveNonNegativeIff(s, req);
      if FindRow(s.rows, req.product, req.toWarehouse).Some? {
        var j := FindRow(s.rows, req.product, req.toWarehouse).value;
        assert s.rows[j].quantity >= 0;
      }
    } else {
      MoveOutcomes(s, req);
    }
  }

  /** Validation lets a negative quantity through and the stock guard passes it, so a
      request to move -5 units from warehouse 1 to warehouse 2 moves 5 units from 2 to 1. */
  lemma NegativeQuantityMovesStockBackwards()
    ensures var s := InventoryState({1, 2}, {7}, [InventoryRow(0, 7, 1, 0), InventoryRow(1, 7, 2, 10)], 2);
      var out := Move(s, Serializers.MoveData(1, 2, 7, -5));
      && out.response == Moved(1)
      && out.state.rows == [InventoryRow(0, 7, 1, 5), InventoryRow(1, 7, 2, 5)]
  {
    var s := InventoryState({1, 2}, {7}, [InventoryRow(0, 7, 1, 0), InventoryRow(1, 7, 2, 10)], 2);
    var req := Serializers.MoveData(1, 2, 7, -5);
    assert FindRow(s.rows, 7, 1) == Some(0);
    assert FindRow(s.rows, 7, 2) == Some(1);
    var drained := s.rows[0 := s.rows[0].(quantity := 5)];
    assert FindRow(drained, 7, 2) == Some(1);
  }

  /** The endpoint's tables, updated in place: the source row is decremented and saved,
      then the destination row is fetched or created and incremented. */
  class InventoryDb {
    var warehouses: set<int>
    var products: set<int>
    var rows: seq<InventoryRow>
    var nextRowId: nat

    function State(): InventoryState
      reads this
    {
      InventoryState(warehouses, products, rows, nextRowId)
    }

    ghost predicate Valid()
      reads this
    {
      WellFormed(State())
    }

    constructor (warehouses: set<int>, products: set<int>)
      ensures Valid() && State() == InventoryState(warehouses, products, [], 0)
    {
      this.warehouses := warehouses;
      this.products := products;
      rows := [];
      nextRowId := 0;
    }

    method Post(req: Serializers.MoveData) returns (response: MoveResponse)
      requires Valid()
      modifies this
      ensures Valid()
      ensures MoveOutcome(response, State()) == Move(old(State()), req)
    {
      ghost var s0 := State();
      var validated := Serializers.Validate(req);
      if validated.Failure? {
        return BadRequest(validated.error);
      }
      var data := validated.value;
      if data.fromWarehouse !in warehouses || data.toWarehouse !in warehouses {
        return NotFound(WarehouseMissing);
      }
      if data.product !in products {
        return NotFound(ProductMissing);
      }
      var source := FindRow(rows, data.product, data.fromWarehouse);
      if source.None? {
        return NotFound(SourceRowMissing);
      }
      var i := source.value;
      if rows[i].quantity < data.quantity {
        return BadRequest(NotEnoughStock);
      }
      assert Move(s0, req) == Transfer(s0, i, data);
      response := Write(i, data);
      MovePreservesWellFormed(s0, req);
    }

    /** The write part of the endpoint: the source row at i is decremented, then the
        destination row is fetched or created at 0 and incremented. */
    method Write(i: nat, data: Serializers.MoveData) returns (response: MoveResponse)
      requires i < |rows|
      modifies this
      ensures MoveOutcome(response, State()) == Transfer(old(State()), i, data)
    {
      ghost var s0 := State();
      rows := rows[i := rows[i].(quantity := rows[i].quantity - data.quantity)];
      ghost var drained := rows;

      var destination := FindRow(rows, data.product, data.toWarehouse);
      var j: nat;
      if destination.Some? {
        j := destination.value;
      } else {
        rows := rows + [InventoryRow(nextRowId, data.product, data.toWarehouse, 0)];
        j := |rows| - 1;
        nextRowId := nextRowId + 1;
      }
      assert Placement(rows, j, nextRowId) == GetOrCreate(drained, data.product, data.toWarehouse, s0.nextRowId);
      rows := rows[j := rows[j].(quantity := rows[j].quantity + data.quantity)];
      response := Moved(rows[j].id);
    }
  }

  datatype FormOutcome = SavedWithTotal(total: real) | Rerendered

  /** SalesOrderCreateView.form_valid: with a valid item formset, the order total is
      accumulated form by form as quantity * unit price * (100 - discount) / 100, which
      is the sum of the items' line totals; an invalid formset re-renders the page. */
  method SalesOrderFormTotal(formsetValid: bool, forms: seq<SalesOrderItem>) returns (outcome: FormOutcome)
    ensures outcome.Rerendered? <==> !formsetValid
    ensures outcome.SavedWithTotal? ==> outcome.total == ItemsTotal(forms)
  {
    if !formsetValid {
      return Rerendered;
    }
    var total: real := 0.0;
    var k := 0;
    while k < |forms|
      invariant 0 <= k <= |forms|
      invariant total == ItemsTotal(forms[..k])
    {
      var f := forms[k];
      total := total + (f.quantity as real * f.unitPrice) * (100.0 - f.discountPercentage) / 100.0;
      FormTermIsLineTotal(f);
      assert forms[..k + 1][..k] == forms[..k];
      k := k + 1;
    }
    assert forms[..k] == forms;
    return SavedWithTotal(total);
  }

  /** The two-line order of the sales-order form test: 10 at 20.00 less 10% and 5 at
      50.00 less 5% total 180 + 237.5. */
  lemma SalesOrderFormExample()
    ensures ItemsTotal([SalesOrderItem(10, 20.0, 10.0), SalesOrderItem(5, 50.0, 5.0)])
         == 10.0 * 20.0 * (100.0 - 10.0) / 100.0 + 5.0 * 50.0 * (100.0 - 5.0) / 100.0
  {
    var items := [SalesOrderItem(10, 20.0, 10.0), SalesOrderItem(5, 50.0, 5.0)];
    assert items[..1][..0] == [];
  }
}
