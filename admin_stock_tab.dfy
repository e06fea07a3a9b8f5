/**
 * The admin stock console: one shop chosen from a selector (the empty string means no
 * shop), the shop's stock and recent movements as last fetched, the current view, the
 * restock form and the supplier name. Every action does nothing while no shop is chosen.
 */
module AdminStock {
  import opened Wrappers
  import opened Ledger
  import opened StockConsole
  import Pricing

  /** The admin movement list shows at most this many entries. */
  const MovementLimit: nat := 100

  /** `supplierName || null`: the empty name is sent as null. */
  function SupplierOrNull(name: string): (r: Option<string>)
    ensures r.None? <==> name == ""
    ensures r.Some? ==> r.value == name
  {
    if name == "" then None else Some(name)
  }

  class AdminStockTab {
    const db: Datastore
    var selectedShop: string
    var stock: seq<StockRow>
    var movements: seq<Movement>
    var view: View
    var restockItems: RestockForm
    var supplierName: string

    ghost predicate Valid()
      reads this, db
    {
      db.Valid() && UniqueKeys(restockItems)
    }

    constructor (db: Datastore)
      requires db.Valid()
      ensures Valid() && this.db == db
      ensures selectedShop == "" && stock == [] && movements == [] && view == StockView
      ensures restockItems == [] && supplierName == ""
    {
      this.db := db;
      selectedShop := "";
      stock := [];
      movements := [];
      view := StockView;
      restockItems := [];
      supplierName := "";
    }

    /** `fetchStock`: with a shop chosen, the stock rows of `get_shop_stock` and the shop's
        newest movements, at most 100. */
    method FetchStock()
      requires Valid()
      modifies this
      ensures Valid()
      ensures selectedShop == "" ==> stock == old(stock) && movements == old(movements)
      ensures selectedShop != "" ==> stock == db.GetShopStock(selectedShop)
                                     && movements == RecentMovements(db.movements, selectedShop, MovementLimit)
      ensures selectedShop == old(selectedShop) && view == old(view)
      ensures restockItems == old(restockItems) && supplierName == old(supplierName)
    {
      if selectedShop == "" {
        return;
      }
      stock := db.GetShopStock(selectedShop);
      movements := RecentMovements(db.movements, selectedShop, MovementLimit);
    }

    /** The shop selector. Choosing a different shop triggers the effect on
        `selectedShop`, which fetches when the new value is not empty. */
    method SelectShop(shop: string)
      requires Valid()
      modifies this
      ensures Valid() && selectedShop == shop
      ensures shop != old(selectedShop) && shop != "" ==>
        stock == db.GetShopStock(shop) && movements == RecentMovements(db.movements, shop, MovementLimit)
      ensures shop == old(selectedShop) || shop == "" ==> stock == old(stock) && movements == old(movements)
      ensures view == old(view) && restockItems == old(restockItems) && supplierName == old(supplierName)
    {
      if shop != selectedShop {
        selectedShop := shop;
        FetchStock();
      }
    }

    /** The view buttons. */
    method SetView(v: View)
      modifies this
      ensures view == v
      ensures selectedShop == old(selectedShop) && stock == old(stock) && movements == old(movements)
      ensures restockItems == old(restockItems) && supplierName == old(supplierName)
    {
      view := v;
    }

    /** The supplier input. */
    method SetSupplierName(name: string)
      modifies this
      ensures supplierName == name
      ensures selectedShop == old(selectedShop) && stock == old(stock) && movements == old(movements)
      ensures restockItems == old(restockItems) && view == old(view)
    {
      supplierName := name;
    }

    /** A quantity input of the restock form; `parsed` is what `parseInt` made of the text. */
    method SetRestockInput(key: string, parsed: Option<int>)
      requires Valid()
      modifies this
      ensures Valid()
      ensures restockItems == SetEntry(old(restockItems), key, CoerceInput(parsed))
      ensures forall e :: e in restockItems && e.0 == key ==> e == (key, CoerceInput(parsed))
      ensures selectedShop == old(selectedShop) && stock == old(stock) && movements == old(movements)
      ensures view == old(view) && supplierName == old(supplierName)
    {
      SetEntryKeepsKeysUnique(restockItems, key, CoerceInput(parsed));
      restockItems := SetEntry(restockItems, key, CoerceInput(parsed));
    }

    /** `initializeStock`: every catalogue product gets an inventory row for the shop
        (reorder level 5), then the stock is fetched again. */
    method InitializeStock()
      requires Valid()
      modifies this, db
      ensures Valid()
      ensures selectedShop == "" ==>
        db.inventoryItems == old(db.inventoryItems) && stock == old(stock) && movements == old(movements)
      ensures selectedShop != "" ==>
        && db.inventoryItems == InitAll(old(db.inventoryItems), selectedShop, Pricing.ProductKeys, db.upsertOverwrites)
        && (forall k :: k in Pricing.ProductKeys ==> HasPair(db.inventoryItems, selectedShop, k))
        && stock == db.GetShopStock(selectedShop)
        && movements == RecentMovements(db.movements, selectedShop, MovementLimit)
      ensures db.movements == old(db.movements) && db.replenishments == old(db.replenishments)
      ensures db.replenishmentItems == old(db.replenishmentItems)
      ensures selectedShop == old(selectedShop) && view == old(view)
      ensures restockItems == old(restockItems) && supplierName == old(supplierName)
    {
      if selectedShop == "" {
        return;
      }
      InitializeProducts(db, selectedShop);
      FetchStock();
    }

    /** `handleRestock`: the positive entries are received as one replenishment from the
        named supplier, without a recorded author; on success the form and the supplier
        are cleared, the stock view is shown and the stock fetched again. Nothing happens
        without a shop or a positive entry, or when the replenishment insert fails
        (`available` false). */
    method HandleRestock(available: bool) returns (submitted: bool)
      requires Valid()
      modifies this, db
      ensures Valid()
      ensures submitted <==> selectedShop != "" && |PositiveEntries(old(restockItems))| > 0 && available
      ensures !submitted ==> db.movements == old(db.movements) && db.replenishments == old(db.replenishments)
                             && db.replenishmentItems == old(db.replenishmentItems)
                             && restockItems == old(restockItems) && supplierName == old(supplierName)
                             && view == old(view) && stock == old(stock) && movements == old(movements)
      ensures submitted ==>
        && (forall key :: StockOf(db.movements, selectedShop, key)
                       == old(StockOf(db.movements, selectedShop, key)) + Entered(old(restockItems), key))
        && restockItems == [] && supplierName == "" && view == StockView
        && stock == db.GetShopStock(selectedShop)
        && movements == RecentMovements(db.movements, selectedShop, MovementLimit)
        && (exists rid: nat ::
              var lines := ReplenishmentLines(rid, PositiveEntries(old(restockItems)));
              && rid !in old(db.replenishments)
              && db.replenishments == old(db.replenishments)[rid := Replenishment(
                   selectedShop, SupplierOrNull(old(supplierName)), RECEIVED, 0, None)]
              && db.replenishmentItems == old(db.replenishmentItems) + lines
              && db.movements == old(db.movements) + RestockMovements(selectedShop, lines))
      ensures db.inventoryItems == old(db.inventoryItems) && selectedShop == old(selectedShop)
    {
      if selectedShop == "" {
        return false;
      }
      var rid := SubmitReplenishment(db, selectedShop, SupplierOrNull(supplierName), None, restockItems, available);
      if rid.None? {
        return false;
      }
      assert rid.value !in old(db.replenishments);
      restockItems := [];
      supplierName := "";
      view := StockView;
      FetchStock();
      submitted := true;
    }

    /** `addAdjustment`: one ADJUSTMENT movement with the note as reference and no author,
        then the stock is fetched again. */
    method AddAdjustment(key: string, qty: int, note: string)
      requires Valid()
      modifies this, db
      ensures Valid()
      ensures selectedShop == "" ==> db.movements == old(db.movements) && stock == old(stock) && movements == old(movements)
      ensures selectedShop != "" ==>
        && db.movements == old(db.movements) + [Movement(selectedShop, key, ADJUSTMENT, qty, Some(Note(note)), None)]
        && StockOf(db.movements, selectedShop, key) == old(StockOf(db.movements, selectedShop, key)) + qty
        && stock == db.GetShopStock(selectedShop)
        && movements == RecentMovements(db.movements, selectedShop, MovementLimit)
      ensures db.inventoryItems == old(db.inventoryItems) && db.replenishments == old(db.replenishments)
      ensures db.replenishmentItems == old(db.replenishmentItems)
      ensures selectedShop == old(selectedShop) && view == old(view)
      ensures restockItems == old(restockItems) && supplierName == old(supplierName)
    {
      if selectedShop == "" {
        return;
      }
      var m := Movement(selectedShop, key, ADJUSTMENT, qty, Some(Note(note)), None);
      StockAfterMovement(db.movements, m, selectedShop, key);
      db.InsertMovement(m);
      FetchStock();
    }

    /** The +1 button of a stock row: one "Admin +1" adjustment of the row's product. */
    method ClickPlusOne(row: StockRow)
      requires Valid()
      modifies this, db
      ensures Valid()
      ensures selectedShop == "" ==> db.movements == old(db.movements) && stock == old(stock) && movements == old(movements)
      ensures selectedShop != "" ==>
        && db.movements == old(db.movements)
           + [Movement(selectedShop, row.productKey, ADJUSTMENT, 1, Some(Note("Admin +1")), None)]
        && StockOf(db.movements, selectedShop, row.productKey) == old(StockOf(db.movements, selectedShop, row.productKey)) + 1
        && stock == db.GetShopStock(selectedShop)
        && movements == RecentMovements(db.movements, selectedShop, MovementLimit)
      ensures db.inventoryItems == old(db.inventoryItems) && db.replenishments == old(db.replenishments)
      ensures db.replenishmentItems == old(db.replenishmentItems)
      ensures selectedShop == old(selectedShop) && view == old(view)
      ensures restockItems == old(restockItems) && supplierName == old(supplierName)
    {
      AddAdjustment(row.productKey, 1, "Admin +1");
    }

    /** The -1 button of a stock row: one "Admin -1" adjustment, written only while the row
        shows a positive stock, so pressing it on a row that shows the current,
        non-negative stock never makes that stock negative. */
    method ClickMinusOne(row: StockRow)
      requires Valid()
      modifies this, db
      ensures Valid()
      ensures row.currentStock <= 0 || selectedShop == "" ==>
        db.movements == old(db.movements) && stock == old(stock) && movements == old(movements)
      ensures row.currentStock > 0 && selectedShop != "" ==>
        && db.movements == old(db.movements)
           + [Movement(selectedShop, row.productKey, ADJUSTMENT, -1, Some(Note("Admin -1")), None)]
        && StockOf(db.movements, selectedShop, row.productKey) == old(StockOf(db.movements, selectedShop, row.productKey)) - 1
        && stock == db.GetShopStock(selectedShop)
        && movements == RecentMovements(db.movements, selectedShop, MovementLimit)
      ensures 0 <= row.currentStock == old(StockOf(db.movements, selectedShop, row.productKey)) ==>
        StockOf(db.movements, selectedShop, row.productKey) >= 0
      ensures db.inventoryItems == old(db.inventoryItems) && db.replenishments == old(db.replenishments)
      ensures db.replenishmentItems == old(db.replenishmentItems)
      ensures selectedShop == old(selectedShop) && view == old(view)
      ensures restockItems == old(restockItems) && supplierName == old(supplierName)
    {
      if row.currentStock > 0 {
        AddAdjustment(row.productKey, -1, "Admin -1");
      }
    }
  }
}
