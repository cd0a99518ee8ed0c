/** The ProductInventory table: one row per (product, warehouse) pair holding a stock
    quantity, and the per-product and per-warehouse sums over it. The table is kept as
    the sequence of its rows; `unique_together` becomes the predicate UniqueKeys and the
    PositiveIntegerField on quantity becomes NonNegative. */
module InventoryModels {
  import opened Wrappers

  datatype InventoryRow = InventoryRow(id: nat, product: int, warehouse: int, quantity: int)

  predicate RowFor(r: InventoryRow, product: int, warehouse: int) {
    r.product == product && r.warehouse == warehouse
  }

  /** At most one row per (product, warehouse). */
  predicate UniqueKeys(rows: seq<InventoryRow>) {
    forall i, j :: 0 <= i < j < |rows| ==> !RowFor(rows[j], rows[i].product, rows[i].warehouse)
  }

  /** Every stored quantity is a non-negative integer. */
  predicate NonNegative(rows: seq<InventoryRow>) {
    forall i :: 0 <= i < |rows| ==> rows[i].quantity >= 0
  }

  predicate HasProductRow(rows: seq<InventoryRow>, product: int) {
    exists i :: 0 <= i < |rows| && rows[i].product == product
  }

  predicate HasWarehouseRow(rows: seq<InventoryRow>, warehouse: int) {
    exists i :: 0 <= i < |rows| && rows[i].warehouse == warehouse
  }

  /** ProductInventory.objects.get(product=..., warehouse=...): the index of the row for
      the pair, or None when the table has no such row. */
  function FindRow(rows: seq<InventoryRow>, product: int, warehouse: int): (r: Option<nat>)
    ensures r.Some? ==> r.value < |rows| && RowFor(rows[r.value], product, warehouse)
    ensures r.None? <==> forall i :: 0 <= i < |rows| ==> !RowFor(rows[i], product, warehouse)
  {
    if rows == [] then None
    else if RowFor(rows[|rows| - 1], product, warehouse) then Some(|rows| - 1)
    else FindRow(rows[..|rows| - 1], product, warehouse)
  }

  /** The stock of a product in a warehouse, 0 when there is no row for the pair. */
  function QuantityAt(rows: seq<InventoryRow>, product: int, warehouse: int): int {
    match FindRow(rows, product, warehouse)
    case Some(i) => rows[i].quantity
    case None => 0
  }

  /** Product.get_total_quantity: the sum of the quantities of the product's rows. */
  function ProductTotal(rows: seq<InventoryRow>, product: int): (total: int)
    ensures NonNegative(rows) ==> total >= 0
    ensures !HasProductRow(rows, product) ==> total == 0
  {
    if rows == [] then 0
    else
      var last := rows[|rows| - 1];
      ProductTotal(rows[..|rows| - 1], product) + (if last.product == product then last.quantity else 0)
  }

  /** The sum of the quantities of a warehouse's rows. */
  function WarehouseTotal(rows: seq<InventoryRow>, warehouse: int): (total: int)
    ensures NonNegative(rows) ==> total >= 0
    ensures !HasWarehouseRow(rows, warehouse) ==> total == 0
  {
    if rows == [] then 0
    else
      var last := rows[|rows| - 1];
      WarehouseTotal(rows[..|rows| - 1], warehouse) + (if last.warehouse == warehouse then last.quantity else 0)
  }

  /** With unique keys the table is a finite map keyed by (product, warehouse): the row
      stored for a pair is the one every lookup of that pair finds. */
  lemma {:induction false} FindRowUnique(rows: seq<InventoryRow>, i: nat)
    requires UniqueKeys(rows) && i < |rows|
    ensures FindRow(rows, rows[i].product, rows[i].warehouse) == Some(i)
  {
    if i < |rows| - 1 {
      assert !RowFor(rows[|rows| - 1], rows[i].product, rows[i].warehouse);
      FindRowUnique(rows[..|rows| - 1], i);
    }
  }

  /** Changing one row's quantity shifts its product's total by the difference and leaves
      every other product's total alone. */
  lemma {:induction false} ProductTotalUpdate(rows: seq<InventoryRow>, i: nat, q: int, product: int)
    requires i < |rows|
    ensures ProductTotal(rows[i := rows[i].(quantity := q)], product)
         == ProductTotal(rows, product) + (if rows[i].product == product then q - rows[i].quantity else 0)
  {
    var rows' := rows[i := rows[i].(quantity := q)];
    if i == |rows| - 1 {
      assert rows'[..|rows'| - 1] == rows[..|rows| - 1];
    } else {
      assert rows'[..|rows'| - 1] == rows[..|rows| - 1][i := rows[i].(quantity := q)];
      ProductTotalUpdate(rows[..|rows| - 1], i, q, product);
    }
  }

  /** Appending a row adds its quantity to its own product's total only. */
  lemma ProductTotalAppend(rows: seq<InventoryRow>, r: InventoryRow, product: int)
    ensures ProductTotal(rows + [r], product)
         == ProductTotal(rows, product) + (if r.product == product then r.quantity else 0)
  {
    assert (rows + [r])[..|rows|] == rows;
  }

  /** The same two facts for the per-warehouse sum. */
  lemma {:induction false} WarehouseTotalUpdate(rows: seq<InventoryRow>, i: nat, q: int, warehouse: int)
    requires i < |rows|
    ensures WarehouseTotal(rows[i := rows[i].(quantity := q)], warehouse)
         == WarehouseTotal(rows, warehouse) + (if rows[i].warehouse == warehouse then q - rows[i].quantity else 0)
  {
    var rows' := rows[i := rows[i].(quantity := q)];
    if i == |rows| - 1 {
      assert rows'[..|rows'| - 1] == rows[..|rows| - 1];
    } else {
      assert rows'[..|rows'| - 1] == rows[..|rows| - 1][i := rows[i].(quantity := q)];
      WarehouseTotalUpdate(rows[..|rows| - 1], i, q, warehouse);
    }
  }

  lemma WarehouseTotalAppend(rows: seq<InventoryRow>, r: InventoryRow, warehouse: int)
    ensures WarehouseTotal(rows + [r], warehouse)
         == WarehouseTotal(rows, warehouse) + (if r.warehouse == warehouse then r.quantity else 0)
  {
    assert (rows + [r])[..|rows|] == rows;
  }
}
