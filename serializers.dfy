/** The input check of the inventory-move endpoint and the warehouse serializer's
    total-quantity field. */
module Serializers {
  import opened Wrappers
  import opened InventoryModels

  /** The four integer fields of an inventory-move request. */
  datatype MoveData = MoveData(fromWarehouse: int, toWarehouse: int, product: int, quantity: int)

  const SameWarehouseError := "Cannot move product to the same warehouse"

  /** InventoryMoveSerializer.validate: refuses a move whose two warehouses are the same
      and otherwise hands its input back untouched. Product and quantity are not looked
      at, so a zero or negative quantity passes. */
  function Validate(data: MoveData): (r: Result<MoveData, string>)
    ensures r.Failure? <==> data.fromWarehouse == data.toWarehouse
    ensures r.Failure? ==> r.error == SameWarehouseError
    ensures r.Success? ==> r.value == data
  {
    if data.fromWarehouse == data.toWarehouse then Failure(SameWarehouseError) else Success(data)
  }

  /** Whether validation passes depends on the two warehouse ids alone. */
  lemma ValidateIgnoresProductAndQuantity(data: MoveData, product: int, quantity: int)
    ensures Validate(data.(product := product, quantity := quantity)).Success?
        == Validate(data).Success?
  {
  }

  /** WarehouseInventorySerializer.get_total_product_quantity as written: the aggregate
      is computed but not returned, so the field is always null. */
  function GetTotalProductQuantity(rows: seq<InventoryRow>, warehouse: int): Option<int> {
    None
  }

  /** The evidently intended field: the aggregate Sum of the warehouse's quantities,
      which is null exactly when the warehouse has no inventory rows. */
  function GetTotalProductQuantityIntended(rows: seq<InventoryRow>, warehouse: int): (r: Option<int>)
    ensures r.None? <==> !HasWarehouseRow(rows, warehouse)
    ensures r.Some? ==> r.value == WarehouseTotal(rows, warehouse)
    ensures r.Some? && NonNegative(rows) ==> r.value >= 0
  {
    if HasWarehouseRow(rows, warehouse) then Some(WarehouseTotal(rows, warehouse)) else None
  }

  /** Every warehouse that holds stock rows is serialized with a null total, although
      the sum it was meant to report exists. */
  lemma TotalProductQuantityIsAlwaysNull(rows: seq<InventoryRow>, warehouse: int)
    requires HasWarehouseRow(rows, warehouse)
    ensures GetTotalProductQuantity(rows, warehouse).None?
    ensures GetTotalProductQuantity(rows, warehouse) != GetTotalProductQuantityIntended(rows, warehouse)
  {
  }
}
