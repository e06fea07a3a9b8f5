/**
 * The shop owner's stock console: the same stock, movement and restock views as the
 * admin console, fixed to the owner's shop, with the signed-in user recorded as the
 * author of what the owner writes and a badge counting rows at or below their reorder
 * level.
 */
module OwnerStock {
  import opened Wrappers
  import opened Ledger
  import opened StockConsole
  import Pricing

  /** The owner movement list shows at most this many entries. */
  const MovementLimit: nat := 50

  class OwnerStockTab {
    const db: Datastore
    const shopId: string
    /** `user?.id`: the signed-in user, if any. */
    const user: Option<string>
    var stock: seq<StockRow>
    var movements: seq<Movement>
    var view: View
    var restockItems: RestockForm

    ghost predicate Valid()
      reads this, db
    {
      db.Valid() && UniqueKeys(restockItems)
    }

    /** Mounting the tab fetches the shop's stock and movements once. */
    constructor (db: Datastore, shopId: string, user: Option<string>)
      requires db.Valid()
      ensures Valid() && this.db == db && this.shopId == shopId && this.user == user
      ensures stock == db.GetShopStock(shopId) && movements == RecentMovements(db.movements, shopId, MovementLimit)
      ensures view == StockView && restockItems == []
    {
      this.db := db;
      this.shopId := shopId;
      this.user := user;
      stock := db.GetShopStock(shopId);
      movements := RecentMovements(db.movements, shopId, MovementLimit);
      view := StockView;
      restockItems := [];
    }

    /** The number shown on the low-stock badge. */
    function LowStockBadge(): (n: nat)
      reads this
      ensures n <= |stock|
      ensures (forall i :: 0 <= i < |stock| ==> stock[i].reorderLevel >= 0) ==> n == CountNotOk(stock)
    {
      if forall i :: 0 <= i < |stock| ==> stock[i].reorderLevel >= 0 then
        LowStockCountsOutAndLow(stock);
        LowStockCount(stock)
      else
        LowStockCount(stock)
    }

    /** `fetchStock`: the stock rows of `get_shop_stock` and the newest 50 movements. */
    method FetchStock()
      requires Valid()
      modifies this
      ensures Valid()
      ensures stock == db.GetShopStock(shopId) && movements == RecentMovements(db.movements, shopId, MovementLimit)
      ensures view == old(view) && restockItems == old(restockItems)
    {
      stock := db.GetShopStock(shopId);
      movements := RecentMovements(db.movements, shopId, MovementLimit);
    }

    /** The view buttons. */
    method SetView(v: View)
      modifies this
      ensures view == v
      ensures stock == old(stock) && movements == old(movements) && restockItems == old(restockItems)
    {
      view := v;
    }

    /** A quantity input of the restock form; `parsed` is what `parseInt` made of the text. */
    method SetRestockInput(key: string, parsed: Option<int>)
      requires Valid()
      modifies this
      ensures Valid()
      ensures restockItems == SetEntry(old(restockItems), key, CoerceInput(parsed))
      ensures forall e :: e in restockItems && e.0 == key ==> e == (key, CoerceInput(parsed))
      ensures stock == old(stock) && movements == old(movements) && view == old(view)
    {
      SetEntryKeepsKeysUnique(restockItems, key, CoerceInput(parsed));
      restockItems := SetEntry(restockItems, key, CoerceInput(parsed));
    }

    /** `initializeStock`: every catalogue product gets an inventory row for the shop
        (reorder level 5), then the stock is fetched again. */
    method InitializeStock()
      requires Valid()
      modifies this, db
      ensures Valid()
      ensures db.inventoryItems == InitAll(old(db.inventoryItems), shopId, Pricing.ProductKeys, db.upsertOverwrites)
      ensures forall k :: k in Pricing.ProductKeys ==> HasPair(db.inventoryItems, shopId, k)
      ensures stock == db.GetShopStock(shopId) && movements == RecentMovements(db.movements, shopId, MovementLimit)
      ensures db.movements == old(db.movements) && db.replenishments == old(db.replenishments)
      ensures db.replenishmentItems == old(db.replenishmentItems)
      ensures view == old(view) && restockItems == old(restockItems)
    {
      InitializeProducts(db, shopId);
      FetchStock();
    }

    /** `handleRestock`: the positive entries are received as one replenishment without a
        supplier, authored by the signed-in user; on success the form is cleared, the stock
        view shown and the stock fetched again. Nothing happens without a positive entry
        or when the replenishment insert fails (`available` false). */
    method HandleRestock(available: bool) returns (submitted: bool)
      requires Valid()
      modifies this, db
      ensures Valid()
      ensures submitted <==> |PositiveEntries(old(restockItems))| > 0 && available
      ensures !submitted ==> db.movements == old(db.movements) && db.replenishments == old(db.replenishments)
                             && db.replenishmentItems == old(db.replenishmentItems)
                             && restockItems == old(restockItems) && view == old(view)
                             && stock == old(stock) && movements == old(movements)
      ensures submitted ==>
        && (forall key :: StockOf(db.movements, shopId, key)
                       == old(StockOf(db.movements, shopId, key)) + Entered(old(restockItems), key))
        && restockItems == [] && view == StockView
        && stock == db.GetShopStock(shopId)
        && movements == RecentMovements(db.movements, shopId, MovementLimit)
        && (exists rid: nat ::
              var lines := ReplenishmentLines(rid, PositiveEntries(old(restockItems)));
              && rid !in old(db.replenishments)
              && db.replenishments == old(db.replenishments)[rid := Replenishment(shopId, None, RECEIVED, 0, user)]
              && db.replenishmentItems == old(db.replenishmentItems) + lines
              && db.movements == old(db.movements) + RestockMovements(shopId, lines))
      ensures db.inventoryItems == old(db.inventoryItems)
    {
      var rid := SubmitReplenishment(db, shopId, None, user, restockItems, available);
      if rid.None? {
        return false;
      }
      assert rid.value !in old(db.replenishments);
      restockItems := [];
      view := StockView;
      FetchStock();
      submitted := true;
    }

    /** `addMovement`: one ADJUSTMENT movement with the note as reference, authored by the
        signed-in user, then the stock is fetched again. */
    method AddMovement(key: string, qty: int, note: string)
      requires Valid()
      modifies this, db
      ensures Valid()
      ensures db.movements == old(db.movements) + [Movement(shopId, key, ADJUSTMENT, qty, Some(Note(note)), user)]
      ensures StockOf(db.movements, shopId, key) == old(StockOf(db.movements, shopId, key)) + qty
      ensures stock == db.GetShopStock(shopId) && movements == RecentMovements(db.movements, shopId, MovementLimit)
      ensures db.inventoryItems == old(db.inventoryItems) && db.replenishments == old(db.replenishments)
      ensures db.replenishmentItems == old(db.replenishmentItems)
      ensures view == old(view) && restockItems == old(restockItems)
    {
      var m := Movement(shopId, key, ADJUSTMENT, qty, Some(Note(note)), user);
      StockAfterMovement(db.movements, m, shopId, key);
      db.InsertMovement(m);
      FetchStock();
    }

    /** The +1 button of a stock row: one "Owner +1" adjustment of the row's product. */
    method ClickPlusOne(row: StockRow)
      requires Valid()
      modifies this, db
      ensures Valid()
      ensures db.movements == old(db.movements)
              + [Movement(shopId, row.productKey, ADJUSTMENT, 1, Some(Note("Owner +1")), user)]
      ensures StockOf(db.movements, shopId, row.productKey) == old(StockOf(db.movements, shopId, row.productKey)) + 1
      ensures stock == db.GetShopStock(shopId) && movements == RecentMovements(db.movements, shopId, MovementLimit)
      ensures db.inventoryItems == old(db.inventoryItems) && db.replenishments == old(db.replenishments)
      ensures db.replenishmentItems == old(db.replenishmentItems)
      ensures view == old(view) && restockItems == old(restockItems)
    {
      AddMovement(row.productKey, 1, "Owner +1");
    }

    /** The -1 button of a stock row: one "Owner -1" adjustment, written only while the row
        shows a positive stock, so pressing it on a row that shows the current,
        non-negative stock never makes that stock negative. */
    method ClickMinusOne(row: StockRow)
      requires Valid()
      modifies this, db
      ensures Valid()
      ensures row.currentStock <= 0 ==>
        db.movements == old(db.movements) && stock == old(stock) && movements == old(movements)
      ensures row.currentStock > 0 ==>
        && db.movements == old(db.movements)
           + [Movement(shopId, row.productKey, ADJUSTMENT, -1, Some(Note("Owner -1")), user)]
        && StockOf(db.movements, shopId, row.productKey) == old(StockOf(db.movements, shopId, row.productKey)) - 1
        && stock == db.GetShopStock(shopId)
        && movements == RecentMovements(db.movements, shopId, MovementLimit)
      ensures 0 <= row.currentStock == old(StockOf(db.movements, shopId, row.productKey)) ==>
        StockOf(db.movements, shopId, row.productKey) >= 0
      ensures db.inventoryItems == old(db.inventoryItems) && db.replenishments == old(db.replenishments)
      ensures db.replenishmentItems == old(db.replenishmentItems)
      ensures view == old(view) && restockItems == old(restockItems)
    {
      if row.currentStock > 0 {
        AddMovement(row.productKey, -1, "Owner -1");
      }
    }
  }
}
