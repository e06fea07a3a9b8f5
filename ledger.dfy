/**
 * The hosted datastore the stock consoles talk to, as an abstract collaborator:
 * an append-only log of stock movements, the inventory items of each shop (unique per
 * shop and product key), replenishments and their line items.
 *
 * The server procedures `get_shop_stock` and `receive_replenishment` run in the backend;
 * their bodies here are the contracts the consoles rely on, not code of the storefront:
 * the current stock of a (shop, product) pair is the sum of its movements, and receiving
 * a DRAFT replenishment marks it RECEIVED and appends one RESTOCK movement per line item.
 */
module Ledger {
  import opened Wrappers

  datatype MovementType = INITIAL | RESTOCK | SALE | ADJUSTMENT | TRANSFER_IN | TRANSFER_OUT | RETURN

  datatype ReplenishmentStatus = DRAFT | RECEIVED | CANCELLED

  /** A movement's `reference`: a free-text note, or the replenishment it was received from. */
  datatype Reference = Note(text: string) | FromReplenishment(id: nat)

  datatype Movement = Movement(shopId: string, productKey: string, movementType: MovementType,
                               quantity: int, reference: Option<Reference>, createdBy: Option<string>)

  datatype InventoryItem = InventoryItem(shopId: string, productKey: string, reorderLevel: int)

  datatype Replenishment = Replenishment(shopId: string, supplierName: Option<string>,
                                         status: ReplenishmentStatus, totalCost: int,
                                         createdBy: Option<string>)

  datatype ReplenishmentItem = ReplenishmentItem(replenishmentId: nat, productKey: string,
                                                 quantity: int, unitCost: int)

  /** One row of `get_shop_stock`. */
  datatype StockRow = StockRow(productKey: string, currentStock: int, reorderLevel: int)

  // ---------------------------------------------------------------------------------
  // Stock as the sum of the ledger

  function Delta(m: Movement, shop: string, key: string): int {
    if m.shopId == shop && m.productKey == key then m.quantity else 0
  }

  /** The current stock of (shop, key): the sum of the quantities of its movements. */
  function StockOf(log: seq<Movement>, shop: string, key: string): int {
    if log == [] then 0 else StockOf(log[..|log| - 1], shop, key) + Delta(log[|log| - 1], shop, key)
  }

  lemma {:induction false} StockOfAppend(a: seq<Movement>, b: seq<Movement>, shop: string, key: string)
    ensures StockOf(a + b, shop, key) == StockOf(a, shop, key) + StockOf(b, shop, key)
    decreases |b|
  {
    if b == [] {
      assert a + b == a;
    } else {
      assert (a + b)[..|a + b| - 1] == a + b[..|b| - 1];
      StockOfAppend(a, b[..|b| - 1], shop, key);
    }
  }

  /** Appending one movement changes the stock of its own pair by its quantity and no
      other pair's stock. */
  lemma StockAfterMovement(log: seq<Movement>, m: Movement, shop: string, key: string)
    ensures StockOf(log + [m], shop, key)
         == StockOf(log, shop, key) + (if m.shopId == shop && m.productKey == key then m.quantity else 0)
  {
    assert (log + [m])[..|log|] == log;
  }

  /** Concurrent writers may append in any order: the stock does not depend on it. */
  lemma StockOrderIndependent(a: seq<Movement>, b: seq<Movement>, shop: string, key: string)
    ensures StockOf(a + b, shop, key) == StockOf(b + a, shop, key)
  {
    StockOfAppend(a, b, shop, key);
    StockOfAppend(b, a, shop, key);
  }

  // ---------------------------------------------------------------------------------
  // Inventory items: upsert on the (shop_id, product_key) conflict key

  predicate SamePair(a: InventoryItem, b: InventoryItem) {
    a.shopId == b.shopId && a.productKey == b.productKey
  }

  predicate HasPair(rows: seq<InventoryItem>, shop: string, key: string) {
    exists i :: 0 <= i < |rows| && rows[i].shopId == shop && rows[i].productKey == key
  }

  predicate UniquePairs(rows: seq<InventoryItem>) {
    forall i, j :: 0 <= i < j < |rows| ==> !SamePair(rows[i], rows[j])
  }

  /** The table after an upsert of `item`: a row with the same (shop, key) is kept in its
      place, replaced by `item` when the backend overwrites on conflict; otherwise `item`
      is appended. */
  function Upserted(rows: seq<InventoryItem>, item: InventoryItem, overwrite: bool): (r: seq<InventoryItem>)
    ensures |r| == if HasPair(rows, item.shopId, item.productKey) then |rows| else |rows| + 1
  {
    if rows == [] then [item]
    else if SamePair(rows[0], item) then [if overwrite then item else rows[0]] + rows[1..]
    else
      var rest := Upserted(rows[1..], item, overwrite);
      assert HasPair(rows, item.shopId, item.productKey) <==> HasPair(rows[1..], item.shopId, item.productKey) by {
        if HasPair(rows, item.shopId, item.productKey) {
          var i :| 0 <= i < |rows| && rows[i].shopId == item.shopId && rows[i].productKey == item.productKey;
          assert rows[1..][i - 1] == rows[i];
        }
        if HasPair(rows[1..], item.shopId, item.productKey) {
          var i :| 0 <= i < |rows[1..]| && rows[1..][i].shopId == item.shopId && rows[1..][i].productKey == item.productKey;
          assert rows[i + 1] == rows[1..][i];
        }
      }
      [rows[0]] + rest
  }

  /** The upserted pair is present afterwards. */
  lemma {:induction false} UpsertedHasPair(rows: seq<InventoryItem>, item: InventoryItem, overwrite: bool)
    ensures HasPair(Upserted(rows, item, overwrite), item.shopId, item.productKey)
  {
    var r := Upserted(rows, item, overwrite);
    if rows == [] || SamePair(rows[0], item) {
      assert SamePair(r[0], item);
    } else {
      UpsertedHasPair(rows[1..], item, overwrite);
      var rest := Upserted(rows[1..], item, overwrite);
      var k :| 0 <= k < |rest| && rest[k].shopId == item.shopId && rest[k].productKey == item.productKey;
      assert r[k + 1] == rest[k];
    }
  }

  /** Rows of other pairs are kept and nothing else appears; the upserted pair's row is
      `item`, or, when the backend does not overwrite, the row that was there. */
  lemma {:induction false} UpsertedMembers(rows: seq<InventoryItem>, item: InventoryItem, overwrite: bool)
    requires UniquePairs(rows)
    ensures var r := Upserted(rows, item, overwrite);
      && (forall x :: x in rows && !SamePair(x, item) ==> x in r)
      && (forall x :: x in r && !SamePair(x, item) ==> x in rows)
      && (forall x :: x in r && SamePair(x, item) ==> x == item || (!overwrite && x in rows))
  {
    if rows != [] {
      var r := Upserted(rows, item, overwrite);
      assert rows == [rows[0]] + rows[1..];
      var tail := rows[1..];
      if SamePair(rows[0], item) {
        assert r == [if overwrite then item else rows[0]] + tail;
        forall x | x in tail ensures !SamePair(x, item) {
          var i :| 0 <= i < |tail| && tail[i] == x;
          assert rows[i + 1] == x;
        }
      } else {
        assert UniquePairs(tail) by {
          forall i, j | 0 <= i < j < |tail| ensures !SamePair(tail[i], tail[j]) {
            assert tail[i] == rows[i + 1] && tail[j] == rows[j + 1];
          }
        }
        UpsertedMembers(rows[1..], item, overwrite);
        assert r == [rows[0]] + Upserted(rows[1..], item, overwrite);
      }
    }
  }

  /** Rows with a leading row have unique pairs exactly when the tail does and the
      leading pair is not among the tail's. */
  lemma UniquePairsCons(x: InventoryItem, t: seq<InventoryItem>)
    ensures UniquePairs([x] + t) <==> UniquePairs(t) && forall y :: y in t ==> !SamePair(x, y)
  {
    var s := [x] + t;
    if UniquePairs(s) {
      forall i, j | 0 <= i < j < |t| ensures !SamePair(t[i], t[j]) {
        assert s[i + 1] == t[i] && s[j + 1] == t[j];
      }
      forall y | y in t ensures !SamePair(x, y) {
        var j :| 0 <= j < |t| && t[j] == y;
        assert s[0] == x && s[j + 1] == y;
      }
    }
    if UniquePairs(t) && forall y :: y in t ==> !SamePair(x, y) {
      forall i, j | 0 <= i < j < |s| ensures !SamePair(s[i], s[j]) {
        assert s[j] == t[j - 1] && s[j] in t;
        if i > 0 { assert s[i] == t[i - 1]; }
      }
    }
  }

  /** No pair ever gets a second row. */
  lemma {:induction false} UpsertedUnique(rows: seq<InventoryItem>, item: InventoryItem, overwrite: bool)
    requires UniquePairs(rows)
    ensures UniquePairs(Upserted(rows, item, overwrite))
  {
    if rows != [] {
      var tail := rows[1..];
      assert rows == [rows[0]] + tail;
      UniquePairsCons(rows[0], tail);
      if SamePair(rows[0], item) {
        var head := if overwrite then item else rows[0];
        UniquePairsCons(head, tail);
      } else {
        UpsertedUnique(tail, item, overwrite);
        UpsertedMembers(tail, item, overwrite);
        UniquePairsCons(rows[0], Upserted(tail, item, overwrite));
      }
    }
  }

  /** Upserting the same row a second time changes nothing. */
  lemma {:induction false} UpsertedIdempotent(rows: seq<InventoryItem>, item: InventoryItem, overwrite: bool)
    ensures Upserted(Upserted(rows, item, overwrite), item, overwrite) == Upserted(rows, item, overwrite)
  {
    if rows == [] {
      assert Upserted([item], item, overwrite) == [item];
    } else if SamePair(rows[0], item) {
      var r := Upserted(rows, item, overwrite);
      assert r[1..] == rows[1..];
    } else {
      UpsertedIdempotent(rows[1..], item, overwrite);
      var r := Upserted(rows, item, overwrite);
      assert r[1..] == Upserted(rows[1..], item, overwrite);
    }
  }

  // ---------------------------------------------------------------------------------
  // Replenishments

  /** The line items of replenishment `rid`, in insertion order. */
  function ItemsOf(items: seq<ReplenishmentItem>, rid: nat): (r: seq<ReplenishmentItem>)
    ensures |r| <= |items|
    ensures forall x :: x in r <==> x in items && x.replenishmentId == rid
  {
    if items == [] then []
    else
      var rest := ItemsOf(items[..|items| - 1], rid);
      assert forall x :: x in items <==> x in items[..|items| - 1] || x == items[|items| - 1] by {
        assert items == items[..|items| - 1] + [items[|items| - 1]];
      }
      if items[|items| - 1].replenishmentId == rid then rest + [items[|items| - 1]] else rest
  }

  lemma {:induction false} ItemsOfAppend(a: seq<ReplenishmentItem>, b: seq<ReplenishmentItem>, rid: nat)
    ensures ItemsOf(a + b, rid) == ItemsOf(a, rid) + ItemsOf(b, rid)
    decreases |b|
  {
    if b == [] {
      assert a + b == a;
    } else {
      assert (a + b)[..|a + b| - 1] == a + b[..|b| - 1];
      ItemsOfAppend(a, b[..|b| - 1], rid);
    }
  }

  lemma {:induction false} ItemsOfNone(items: seq<ReplenishmentItem>, rid: nat)
    requires forall x :: x in items ==> x.replenishmentId != rid
    ensures ItemsOf(items, rid) == []
  {
    if ItemsOf(items, rid) != [] {
      assert ItemsOf(items, rid)[0] in ItemsOf(items, rid);
    }
  }

  /** The RESTOCK movement that receiving a line item appends. */
  function RestockMovement(shop: string, item: ReplenishmentItem): Movement {
    Movement(shop, item.productKey, RESTOCK, item.quantity, Some(FromReplenishment(item.replenishmentId)), None)
  }

  function RestockMovements(shop: string, items: seq<ReplenishmentItem>): (r: seq<Movement>)
    ensures |r| == |items|
    ensures forall i :: 0 <= i < |items| ==> r[i] == RestockMovement(shop, items[i])
  {
    seq(|items|, i requires 0 <= i < |items| => RestockMovement(shop, items[i]))
  }

  // ---------------------------------------------------------------------------------
  // Reads

  /** `get_shop_stock(shop)`: one row per inventory item of the shop, in table order, with
      the sum of the pair's movements as current stock. */
  function ShopStock(rows: seq<InventoryItem>, log: seq<Movement>, shop: string): (r: seq<StockRow>)
    ensures forall x :: x in r ==> x.currentStock == StockOf(log, shop, x.productKey)
                                   && InventoryItem(shop, x.productKey, x.reorderLevel) in rows
    ensures forall it :: it in rows && it.shopId == shop ==>
              StockRow(it.productKey, StockOf(log, shop, it.productKey), it.reorderLevel) in r
  {
    if rows == [] then []
    else
      var it := rows[|rows| - 1];
      var rest := ShopStock(rows[..|rows| - 1], log, shop);
      assert rows == rows[..|rows| - 1] + [it];
      if it.shopId == shop
      then rest + [StockRow(it.productKey, StockOf(log, shop, it.productKey), it.reorderLevel)]
      else rest
  }

  /** `.eq("shop_id", shop)`: the shop's movements in the order they were written. */
  function ShopMovements(log: seq<Movement>, shop: string): (r: seq<Movement>)
    ensures |r| <= |log|
    ensures forall x :: x in r <==> x in log && x.shopId == shop
  {
    if log == [] then []
    else
      var m := log[|log| - 1];
      assert log == log[..|log| - 1] + [m];
      ShopMovements(log[..|log| - 1], shop) + (if m.shopId == shop then [m] else [])
  }

  /** Putting `m` in front of the reverse of `b` gives the reverse of `b + [m]`, with the
      same elements. */
  lemma ReversedSnoc<T>(a: seq<T>, b: seq<T>, m: T)
    requires |a| == |b|
    requires forall i :: 0 <= i < |a| ==> a[i] == b[|a| - 1 - i]
    ensures |[m] + a| == |b + [m]|
    ensures forall i :: 0 <= i < |a| + 1 ==> ([m] + a)[i] == (b + [m])[|a| - i]
  {
    forall i | 0 <= i < |a| + 1 ensures ([m] + a)[i] == (b + [m])[|a| - i] {
      if i > 0 {
        assert ([m] + a)[i] == a[i - 1] == b[|a| - i];
      }
    }
  }

  /** The shop's movements, most recent first (`order created_at desc`): the log is
      written in creation order, so this is the shop's movements read backwards. */
  function NewestFirst(log: seq<Movement>, shop: string): (r: seq<Movement>)
    ensures |r| == |ShopMovements(log, shop)|
    ensures forall i :: 0 <= i < |r| ==> r[i] == ShopMovements(log, shop)[|r| - 1 - i]
  {
    if log == [] then []
    else
      var m := log[|log| - 1];
      var init := log[..|log| - 1];
      var rest := NewestFirst(init, shop);
      assert log == init + [m];
      if m.shopId == shop then
        ReversedSnoc(rest, ShopMovements(init, shop), m);
        [m] + rest
      else
        rest
  }

  /** The newest-first list holds exactly the shop's movements. */
  lemma NewestFirstMembers(log: seq<Movement>, shop: string)
    ensures forall x :: x in NewestFirst(log, shop) <==> x in log && x.shopId == shop
  {
    var r := NewestFirst(log, shop);
    var s := ShopMovements(log, shop);
    forall x | x in s ensures x in r {
      var j :| 0 <= j < |s| && s[j] == x;
      assert r[|r| - 1 - j] == x;
    }
  }

  /** The movement list a console shows (`.limit(limit)`): the first `limit` entries of the
      newest-first list, or all of them when there are fewer. */
  function RecentMovements(log: seq<Movement>, shop: string, limit: nat): (r: seq<Movement>)
    ensures |r| == if |NewestFirst(log, shop)| <= limit then |NewestFirst(log, shop)| else limit
    ensures r == NewestFirst(log, shop)[..|r|]
    ensures forall x :: x in r ==> x in log && x.shopId == shop
  {
    NewestFirstMembers(log, shop);
    var all := NewestFirst(log, shop);
    if |all| <= limit then all else all[..limit]
  }

  /** A movement just appended for the shop heads the shop's movement list. */
  lemma NewestMovementFirst(log: seq<Movement>, m: Movement, limit: nat)
    requires limit > 0
    ensures RecentMovements(log + [m], m.shopId, limit)[0] == m
  {
    assert (log + [m])[..|log|] == log;
  }

  // ---------------------------------------------------------------------------------
  // The datastore

  class Datastore {
    var movements: seq<Movement>
    var inventoryItems: seq<InventoryItem>
    var replenishments: map<nat, Replenishment>
    var replenishmentItems: seq<ReplenishmentItem>
    /** Whether an upsert that hits an existing (shop, key) row overwrites it; the
        storefront does not decide this, the backend does. */
    const upsertOverwrites: bool
    /** The id the next inserted replenishment receives. */
    var nextReplenishmentId: nat

    ghost predicate Valid()
      reads this
    {
      && UniquePairs(inventoryItems)
      && (forall x :: x in replenishmentItems ==> x.replenishmentId in replenishments)
      && (forall id :: id in replenishments ==> id < nextReplenishmentId)
    }

    constructor (upsertOverwrites: bool)
      ensures Valid()
      ensures this.upsertOverwrites == upsertOverwrites
      ensures movements == [] && inventoryItems == [] && replenishments == map[] && replenishmentItems == []
    {
      this.upsertOverwrites := upsertOverwrites;
      movements := [];
      inventoryItems := [];
      replenishments := map[];
      replenishmentItems := [];
      nextReplenishmentId := 0;
    }

    /** `get_shop_stock`. */
    function GetShopStock(shop: string): seq<StockRow>
      reads this
    {
      ShopStock(inventoryItems, movements, shop)
    }

    /** `insert` into `inventory_movements`: one more row at the end of the log. */
    method InsertMovement(m: Movement)
      requires Valid()
      modifies this
      ensures Valid()
      ensures movements == old(movements) + [m]
      ensures inventoryItems == old(inventoryItems) && replenishments == old(replenishments)
      ensures replenishmentItems == old(replenishmentItems)
    {
      movements := movements + [m];
    }

    /** `upsert` into `inventory_items` on the conflict key (shop_id, product_key). */
    method UpsertInventoryItem(item: InventoryItem)
      requires Valid()
      modifies this
      ensures Valid()
      ensures inventoryItems == Upserted(old(inventoryItems), item, upsertOverwrites)
      ensures HasPair(inventoryItems, item.shopId, item.productKey)
      ensures movements == old(movements) && replenishments == old(replenishments)
      ensures replenishmentItems == old(replenishmentItems)
    {
      UpsertedUnique(inventoryItems, item, upsertOverwrites);
      UpsertedHasPair(inventoryItems, item, upsertOverwrites);
      inventoryItems := Upserted(inventoryItems, item, upsertOverwrites);
    }

    /** `insert` into `stock_replenishments` followed by `.select("id").single()`: the new
        id, or nothing when the backend refuses or cannot be reached (`available` false). */
    method InsertReplenishment(r: Replenishment, available: bool) returns (id: Option<nat>)
      requires Valid()
      modifies this
      ensures Valid()
      ensures id.None? <==> !available
      ensures id.None? ==> replenishments == old(replenishments)
      ensures id.Some? ==> id.value !in old(replenishments) && replenishments == old(replenishments)[id.value := r]
      ensures movements == old(movements) && inventoryItems == old(inventoryItems)
      ensures replenishmentItems == old(replenishmentItems)
    {
      if !available {
        return None;
      }
      id := Some(nextReplenishmentId);
      replenishments := replenishments[nextReplenishmentId := r];
      nextReplenishmentId := nextReplenishmentId + 1;
    }

    /** `insert` into `stock_replenishment_items`; the row must name an existing
        replenishment (a foreign key of the table). */
    method InsertReplenishmentItem(item: ReplenishmentItem)
      requires Valid()
      requires item.replenishmentId in replenishments
      modifies this
      ensures Valid()
      ensures replenishmentItems == old(replenishmentItems) + [item]
      ensures movements == old(movements) && inventoryItems == old(inventoryItems)
      ensures replenishments == old(replenishments)
    {
      replenishmentItems := replenishmentItems + [item];
    }

    /** `receive_replenishment(rid)`, as the consoles rely on it: a DRAFT replenishment
        becomes RECEIVED and, in the same step, one RESTOCK movement per line item is
        appended; anything else is a state error that changes nothing. */
    method ReceiveReplenishment(rid: nat) returns (ok: bool)
      requires Valid()
      modifies this
      ensures Valid()
      ensures ok <==> rid in old(replenishments) && old(replenishments)[rid].status == DRAFT
      ensures ok ==> (replenishments == old(replenishments)[rid := old(replenishments)[rid].(status := RECEIVED)]
                      && movements == old(movements)
                         + RestockMovements(old(replenishments)[rid].shopId, ItemsOf(old(replenishmentItems), rid)))
      ensures !ok ==> replenishments == old(replenishments) && movements == old(movements)
      ensures inventoryItems == old(inventoryItems) && replenishmentItems == old(replenishmentItems)
    {
      if rid !in replenishments || replenishments[rid].status != DRAFT {
        return false;
      }
      var shop := replenishments[rid].shopId;
      var lines := ItemsOf(replenishmentItems, rid);
      var i := 0;
      while i < |lines|
        invariant 0 <= i <= |lines|
        invariant movements == old(movements) + RestockMovements(shop, lines[..i])
        invariant replenishments == old(replenishments) && nextReplenishmentId == old(nextReplenishmentId)
        invariant inventoryItems == old(inventoryItems) && replenishmentItems == old(replenishmentItems)
      {
        movements := movements + [RestockMovement(shop, lines[i])];
        assert lines[..i + 1] == lines[..i] + [lines[i]];
        i := i + 1;
      }
      assert lines[..i] == lines;
      replenishments := replenishments[rid := replenishments[rid].(status := RECEIVED)];
      ok := true;
    }
  }

}
