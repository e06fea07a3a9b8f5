/**
 * What the admin and shop-owner stock consoles have in common: the OUT / LOW / OK
 * classifier, the low-stock counter, the restock form (product key -> entered
 * quantity), the restock submission (one DRAFT replenishment, one line per positive
 * entry, one receive call) and the per-product initialisation.
 */
module StockConsole {
  import opened Wrappers
  import opened Ledger
  import Pricing

  datatype View = StockView | MovementsView | RestockView

  datatype StockStatus = Out | Low | Ok

  /** `getStatus`: OUT is checked first, then LOW, otherwise OK. */
  function GetStatus(row: StockRow): (s: StockStatus)
    ensures s == Out <==> row.currentStock <= 0
    ensures s == Low <==> 0 < row.currentStock <= row.reorderLevel
    ensures s == Ok <==> 0 < row.currentStock && row.reorderLevel < row.currentStock
  {
    if row.currentStock <= 0 then Out
    else if row.currentStock <= row.reorderLevel then Low
    else Ok
  }

  /** The badge text of a status, in French or English. */
  function StatusLabel(s: StockStatus, isFr: bool): string {
    match s
    case Out => if isFr then "Rupture" else "Out"
    case Low => if isFr then "Faible" else "Low"
    case Ok => "OK"
  }

  /** The warning icon and the low-stock counter use this test. */
  predicate AtOrBelowReorder(row: StockRow) {
    row.currentStock <= row.reorderLevel
  }

  /** `stock.filter(s => s.current_stock <= s.reorder_level).length`. */
  function LowStockCount(rows: seq<StockRow>): (n: nat)
    ensures n <= |rows|
  {
    if rows == [] then 0
    else (if AtOrBelowReorder(rows[0]) then 1 else 0) + LowStockCount(rows[1..])
  }

  function CountNotOk(rows: seq<StockRow>): nat {
    if rows == [] then 0
    else (if GetStatus(rows[0]) != Ok then 1 else 0) + CountNotOk(rows[1..])
  }

  /** With non-negative reorder levels the counter counts exactly the OUT and LOW rows. */
  lemma {:induction false} LowStockCountsOutAndLow(rows: seq<StockRow>)
    requires forall i :: 0 <= i < |rows| ==> rows[i].reorderLevel >= 0
    ensures LowStockCount(rows) == CountNotOk(rows)
  {
    if rows != [] {
      LowStockCountsOutAndLow(rows[1..]);
    }
  }

  /** With a negative reorder level an OUT row can escape the counter. */
  lemma OutRowNotCountedBelowZeroLevel()
    ensures var row := StockRow("vbh", 0, -1);
      GetStatus(row) == Out && LowStockCount([row]) == 0
  {
  }

  // ---------------------------------------------------------------------------------
  // The restock form: `Record<string, number>`, in insertion order

  type RestockForm = seq<(string, int)>

  predicate UniqueKeys(form: RestockForm) {
    forall i, j :: 0 <= i < j < |form| ==> form[i].0 != form[j].0
  }

  /** `{ ...prev, [key]: v }`: a known key keeps its place and takes the new value; a new
      key is added at the end. */
  function SetEntry(form: RestockForm, key: string, v: int): (r: RestockForm)
    ensures (key, v) in r
    ensures forall e :: e in form && e.0 != key ==> e in r
    ensures forall e :: e in r ==> e == (key, v) || e in form
    ensures forall e :: e in r ==> e.0 == key || e in form
  {
    if form == [] then [(key, v)]
    else if form[0].0 == key then [(key, v)] + form[1..]
    else
      assert form == [form[0]] + form[1..];
      [form[0]] + SetEntry(form[1..], key, v)
  }

  /** A form with a leading entry has unique keys exactly when its tail does and the
      leading key is not among the tail's. */
  lemma UniqueKeysCons(x: (string, int), t: RestockForm)
    ensures UniqueKeys([x] + t) <==> UniqueKeys(t) && forall e :: e in t ==> e.0 != x.0
  {
    var s := [x] + t;
    if UniqueKeys(s) {
      forall i, j | 0 <= i < j < |t| ensures t[i].0 != t[j].0 {
        assert s[i + 1] == t[i] && s[j + 1] == t[j];
      }
      forall e | e in t ensures e.0 != x.0 {
        var j :| 0 <= j < |t| && t[j] == e;
        assert s[0] == x && s[j + 1] == e;
      }
    }
    if UniqueKeys(t) && forall e :: e in t ==> e.0 != x.0 {
      forall i, j | 0 <= i < j < |s| ensures s[i].0 != s[j].0 {
        assert s[j] == t[j - 1] && s[j] in t;
        if i > 0 { assert s[i] == t[i - 1]; }
      }
    }
  }

  lemma {:induction false} SetEntryKeepsKeysUnique(form: RestockForm, key: string, v: int)
    requires UniqueKeys(form)
    ensures UniqueKeys(SetEntry(form, key, v))
    ensures forall e :: e in SetEntry(form, key, v) && e.0 == key ==> e == (key, v)
  {
    if form != [] {
      var tail := form[1..];
      assert form == [form[0]] + tail;
      UniqueKeysCons(form[0], tail);
      if form[0].0 == key {
        UniqueKeysCons((key, v), tail);
      } else {
        SetEntryKeepsKeysUnique(tail, key, v);
        UniqueKeysCons(form[0], SetEntry(tail, key, v));
      }
    }
  }

  /** `parseInt(e.target.value) || 0`, given what `parseInt` produced (`None` for NaN). */
  function CoerceInput(parsed: Option<int>): (v: int)
    ensures parsed.None? ==> v == 0
    ensures parsed.Some? ==> v == parsed.value
  {
    match parsed
    case None => 0
    case Some(n) => if n != 0 then n else 0
  }

  /** `Object.entries(restockItems).filter(([, qty]) => qty > 0)`. */
  function PositiveEntries(form: RestockForm): (r: RestockForm)
    ensures forall e :: e in r <==> e in form && e.1 > 0
  {
    if form == [] then []
    else
      assert form == [form[0]] + form[1..];
      (if form[0].1 > 0 then [form[0]] else []) + PositiveEntries(form[1..])
  }

  /** Input that is not a number is stored as 0 and so never submitted. */
  lemma NonNumericInputNeverSubmitted(form: RestockForm, key: string)
    requires UniqueKeys(form)
    ensures forall e :: e in PositiveEntries(SetEntry(form, key, CoerceInput(None))) ==> e.0 != key
  {
    SetEntryKeepsKeysUnique(form, key, 0);
  }

  /** The replenishment lines written for the positive entries: same key and quantity,
      unit cost 0. */
  function ReplenishmentLines(rid: nat, entries: RestockForm): (r: seq<ReplenishmentItem>)
    ensures |r| == |entries|
    ensures forall i :: 0 <= i < |entries| ==>
              r[i] == ReplenishmentItem(rid, entries[i].0, entries[i].1, 0)
  {
    seq(|entries|, i requires 0 <= i < |entries| => ReplenishmentItem(rid, entries[i].0, entries[i].1, 0))
  }

  /** What was entered for `key` and will be submitted: the sum of its positive entries
      (a single entry, or none, when keys are unique as in the form object). */
  function Entered(form: RestockForm, key: string): int {
    if form == [] then 0
    else (if form[0].0 == key && form[0].1 > 0 then form[0].1 else 0) + Entered(form[1..], key)
  }

  lemma {:induction false} EnteredAbsent(form: RestockForm, key: string)
    requires forall e :: e in form ==> e.0 != key
    ensures Entered(form, key) == 0
  {
    if form != [] {
      assert form[0] in form;
      assert forall e :: e in form[1..] ==> e in form;
      EnteredAbsent(form[1..], key);
    }
  }

  /** With unique keys, the quantity submitted for the key at `i` is its entry if positive. */
  lemma {:induction false} EnteredSingle(form: RestockForm, i: nat)
    requires UniqueKeys(form)
    requires i < |form|
    ensures Entered(form, form[i].0) == if form[i].1 > 0 then form[i].1 else 0
  {
    var tail := form[1..];
    if i == 0 {
      forall e | e in tail ensures e.0 != form[0].0 {
        var j :| 0 <= j < |tail| && tail[j] == e;
        assert form[j + 1] == e;
      }
      EnteredAbsent(tail, form[0].0);
    } else {
      assert UniqueKeys(tail) by {
        forall a, b | 0 <= a < b < |tail| ensures tail[a].0 != tail[b].0 {
          assert tail[a] == form[a + 1] && tail[b] == form[b + 1];
        }
      }
      assert tail[i - 1] == form[i];
      assert form[0].0 != form[i].0;
      EnteredSingle(tail, i - 1);
    }
  }

  lemma LinesAppend(shop: string, rid: nat, a: RestockForm, b: RestockForm)
    ensures RestockMovements(shop, ReplenishmentLines(rid, a + b))
         == RestockMovements(shop, ReplenishmentLines(rid, a)) + RestockMovements(shop, ReplenishmentLines(rid, b))
  {
  }

  lemma StockOfSingle(m: Movement, shop: string, key: string)
    ensures StockOf([m], shop, key) == Delta(m, shop, key)
  {
    assert [m][..0] == [];
  }

  /** The movements written for the positive entries of `form`. */
  function SubmittedMovements(form: RestockForm, shop: string, rid: nat): seq<Movement> {
    RestockMovements(shop, ReplenishmentLines(rid, PositiveEntries(form)))
  }

  lemma HeadStock(form: RestockForm, shop: string, rid: nat, key: string)
    requires form != []
    ensures StockOf(SubmittedMovements(form[..1], shop, rid), shop, key)
         == if form[0].0 == key && form[0].1 > 0 then form[0].1 else 0
  {
    var one := SubmittedMovements(form[..1], shop, rid);
    assert PositiveEntries(form[..1][1..]) == [];
    if form[0].1 > 0 {
      assert one == [RestockMovement(shop, ReplenishmentItem(rid, form[0].0, form[0].1, 0))];
      StockOfSingle(one[0], shop, key);
    } else {
      assert one == [];
    }
  }

  lemma SubmittedSplit(form: RestockForm, shop: string, rid: nat)
    requires form != []
    ensures SubmittedMovements(form, shop, rid)
         == SubmittedMovements(form[..1], shop, rid) + SubmittedMovements(form[1..], shop, rid)
  {
    assert form[..1][1..] == [];
    assert PositiveEntries(form) == PositiveEntries(form[..1]) + PositiveEntries(form[1..]);
    LinesAppend(shop, rid, PositiveEntries(form[..1]), PositiveEntries(form[1..]));
  }

  /** Receiving the submitted replenishment raises each product's stock by exactly the
      quantity entered for it (nothing for a non-positive entry). */
  lemma {:induction false} RestockAddsEntered(form: RestockForm, shop: string, rid: nat, key: string)
    ensures StockOf(SubmittedMovements(form, shop, rid), shop, key) == Entered(form, key)
  {
    if form != [] {
      RestockAddsEntered(form[1..], shop, rid, key);
      SubmittedSplit(form, shop, rid);
      StockOfAppend(SubmittedMovements(form[..1], shop, rid), SubmittedMovements(form[1..], shop, rid), shop, key);
      HeadStock(form, shop, rid, key);
    }
  }

  /** Appending the submitted movements to any log adds exactly the entered quantity. */
  lemma SubmittedStock(log: seq<Movement>, form: RestockForm, shop: string, rid: nat, key: string)
    ensures StockOf(log + SubmittedMovements(form, shop, rid), shop, key) == StockOf(log, shop, key) + Entered(form, key)
  {
    StockOfAppend(log, SubmittedMovements(form, shop, rid), shop, key);
    RestockAddsEntered(form, shop, rid, key);
  }

  // ---------------------------------------------------------------------------------
  // Restock submission and initialisation, as both consoles perform them

  lemma {:induction false} ItemsOfAll(lines: seq<ReplenishmentItem>, rid: nat)
    requires forall x :: x in lines ==> x.replenishmentId == rid
    ensures ItemsOf(lines, rid) == lines
  {
    if lines != [] {
      var init := lines[..|lines| - 1];
      var last := lines[|lines| - 1];
      assert lines == init + [last];
      assert last in lines;
      ItemsOfAll(init, rid);
    }
  }

  lemma ItemsOfFresh(before: seq<ReplenishmentItem>, lines: seq<ReplenishmentItem>, rid: nat)
    requires forall x :: x in before ==> x.replenishmentId != rid
    requires forall x :: x in lines ==> x.replenishmentId == rid
    ensures ItemsOf(before + lines, rid) == lines
  {
    ItemsOfAppend(before, lines, rid);
    ItemsOfNone(before, rid);
    ItemsOfAll(lines, rid);
  }

  /** The `for` loop of `handleRestock`: one insert per line, in order. */
  method InsertLines(db: Datastore, lines: seq<ReplenishmentItem>)
    requires db.Valid()
    requires forall x :: x in lines ==> x.replenishmentId in db.replenishments
    modifies db
    ensures db.Valid()
    ensures db.replenishmentItems == old(db.replenishmentItems) + lines
    ensures db.replenishments == old(db.replenishments)
    ensures db.movements == old(db.movements) && db.inventoryItems == old(db.inventoryItems)
  {
    var i := 0;
    while i < |lines|
      invariant 0 <= i <= |lines|
      invariant db.Valid()
      invariant db.replenishmentItems == old(db.replenishmentItems) + lines[..i]
      invariant db.replenishments == old(db.replenishments)
      invariant db.movements == old(db.movements) && db.inventoryItems == old(db.inventoryItems)
    {
      assert lines[i] in lines;
      db.InsertReplenishmentItem(lines[i]);
      assert lines[..i + 1] == lines[..i] + [lines[i]];
      i := i + 1;
    }
    assert lines[..i] == lines;
  }

  /** `handleRestock` from the filter onwards: nothing is written when no entry is
      positive; otherwise one DRAFT replenishment with total cost 0 is inserted and, only
      when that insert returned an id, one line per positive entry is written and the
      replenishment is received once. `available` is whether the insert succeeds. */
  method SubmitReplenishment(db: Datastore, shop: string, supplier: Option<string>,
                             createdBy: Option<string>, form: RestockForm, available: bool)
    returns (rid: Option<nat>)
    requires db.Valid()
    modifies db
    ensures db.Valid()
    ensures rid.Some? <==> |PositiveEntries(form)| > 0 && available
    ensures rid.None? ==> db.movements == old(db.movements) && db.replenishments == old(db.replenishments)
                          && db.replenishmentItems == old(db.replenishmentItems)
    ensures rid.Some? ==>
      var lines := ReplenishmentLines(rid.value, PositiveEntries(form));
      && rid.value !in old(db.replenishments)
      && db.replenishments == old(db.replenishments)[rid.value := Replenishment(shop, supplier, RECEIVED, 0, createdBy)]
      && db.replenishmentItems == old(db.replenishmentItems) + lines
      && db.movements == old(db.movements) + RestockMovements(shop, lines)
    ensures rid.Some? ==> forall key :: StockOf(db.movements, shop, key)
                                    == old(StockOf(db.movements, shop, key)) + Entered(form, key)
    ensures db.inventoryItems == old(db.inventoryItems)
  {
    var entries := PositiveEntries(form);
    if |entries| == 0 {
      return None;
    }
    var draft := Replenishment(shop, supplier, DRAFT, 0, createdBy);
    rid := db.InsertReplenishment(draft, available);
    if rid.None? {
      return;
    }
    ReceiveDraft(db, rid.value, draft, form);
  }

  /** After the DRAFT insert returned `id`: write the lines, then receive once. */
  method ReceiveDraft(db: Datastore, id: nat, draft: Replenishment, form: RestockForm)
    requires db.Valid()
    requires draft.status == DRAFT
    requires id in db.replenishments && db.replenishments[id] == draft
    requires forall x :: x in db.replenishmentItems ==> x.replenishmentId != id
    modifies db
    ensures db.Valid()
    ensures db.replenishments == old(db.replenishments)[id := draft.(status := RECEIVED)]
    ensures db.replenishmentItems == old(db.replenishmentItems) + ReplenishmentLines(id, PositiveEntries(form))
    ensures db.movements == old(db.movements) + SubmittedMovements(form, draft.shopId, id)
    ensures forall key :: StockOf(db.movements, draft.shopId, key)
                       == old(StockOf(db.movements, draft.shopId, key)) + Entered(form, key)
    ensures db.inventoryItems == old(db.inventoryItems)
  {
    var lines := ReplenishmentLines(id, PositiveEntries(form));
    ghost var itemsBefore := db.replenishmentItems;
    InsertLines(db, lines);
    ItemsOfFresh(itemsBefore, lines, id);
    var ok := db.ReceiveReplenishment(id);
    assert ok;
    forall key ensures StockOf(db.movements, draft.shopId, key) == old(StockOf(db.movements, draft.shopId, key)) + Entered(form, key) {
      SubmittedStock(old(db.movements), form, draft.shopId, id, key);
    }
  }

  /** The inventory table after upserting (shop, key, reorder level 5) for each key in order. */
  function InitAll(rows: seq<InventoryItem>, shop: string, keys: seq<string>, overwrite: bool): seq<InventoryItem>
    decreases |keys|
  {
    if keys == [] then rows
    else InitAll(Upserted(rows, InventoryItem(shop, keys[0], 5), overwrite), shop, keys[1..], overwrite)
  }

  lemma UpsertedKeepsPair(rows: seq<InventoryItem>, item: InventoryItem, overwrite: bool, shop: string, key: string)
    requires UniquePairs(rows)
    requires HasPair(rows, shop, key)
    ensures HasPair(Upserted(rows, item, overwrite), shop, key)
  {
    if item.shopId == shop && item.productKey == key {
      UpsertedHasPair(rows, item, overwrite);
    } else {
      UpsertedMembers(rows, item, overwrite);
      var i :| 0 <= i < |rows| && rows[i].shopId == shop && rows[i].productKey == key;
      var r := Upserted(rows, item, overwrite);
      assert rows[i] in r;
      var j :| 0 <= j < |r| && r[j] == rows[i];
    }
  }

  /** Upserts (shop, key, 5) for each key in order, keyed on (shop_id, product_key), so
      every key then has exactly one row for the shop. */
  method UpsertKeys(db: Datastore, shop: string, keys: seq<string>)
    requires db.Valid()
    modifies db
    ensures db.Valid()
    ensures db.inventoryItems == InitAll(old(db.inventoryItems), shop, keys, db.upsertOverwrites)
    ensures forall k :: k in keys ==> HasPair(db.inventoryItems, shop, k)
    ensures db.movements == old(db.movements) && db.replenishments == old(db.replenishments)
    ensures db.replenishmentItems == old(db.replenishmentItems)
  {
    var i := 0;
    while i < |keys|
      invariant 0 <= i <= |keys|
      invariant db.Valid()
      invariant InitAll(db.inventoryItems, shop, keys[i..], db.upsertOverwrites)
             == InitAll(old(db.inventoryItems), shop, keys, db.upsertOverwrites)
      invariant forall j :: 0 <= j < i ==> HasPair(db.inventoryItems, shop, keys[j])
      invariant db.movements == old(db.movements) && db.replenishments == old(db.replenishments)
      invariant db.replenishmentItems == old(db.replenishmentItems)
    {
      ghost var before := db.inventoryItems;
      var item := InventoryItem(shop, keys[i], 5);
      db.UpsertInventoryItem(item);
      forall j | 0 <= j < i ensures HasPair(db.inventoryItems, shop, keys[j]) {
        UpsertedKeepsPair(before, item, db.upsertOverwrites, shop, keys[j]);
      }
      assert keys[i..][1..] == keys[i + 1..];
      i := i + 1;
    }
  }

  /** `initializeStock`: every catalogue product gets an inventory row for the shop. */
  method InitializeProducts(db: Datastore, shop: string)
    requires db.Valid()
    modifies db
    ensures db.Valid()
    ensures db.inventoryItems == InitAll(old(db.inventoryItems), shop, Pricing.ProductKeys, db.upsertOverwrites)
    ensures forall k :: k in Pricing.ProductKeys ==> HasPair(db.inventoryItems, shop, k)
    ensures db.movements == old(db.movements) && db.replenishments == old(db.replenishments)
    ensures db.replenishmentItems == old(db.replenishmentItems)
  {
    UpsertKeys(db, shop, Pricing.ProductKeys);
  }
}
