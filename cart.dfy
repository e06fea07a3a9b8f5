/**
 * The shopping cart: a list of line items keyed by product or kit key, with the
 * add / merge, remove, set-quantity and clear operations and the derived
 * `total` and `itemCount`.
 */
module Cart {
  import opened Wrappers

  datatype ItemType = Product | Kit

  datatype CartItem = CartItem(id: string, itemType: ItemType, name: string,
                               unitPrice: int, quantity: int, bv: Option<string>)

  /** The argument of `addItem`: a cart item whose quantity may be absent. */
  datatype NewItem = NewItem(id: string, itemType: ItemType, name: string,
                             unitPrice: int, quantity: Option<int>, bv: Option<string>)

  /** `item.quantity || 1`: an absent or zero quantity counts as one. */
  function QuantityOrOne(q: Option<int>): (r: int)
    ensures r != 0
    ensures q.Some? && q.value != 0 ==> r == q.value
    ensures q.None? || q.value == 0 ==> r == 1
  {
    match q
    case Some(v) => if v != 0 then v else 1
    case None => 1
  }

  predicate HasId(items: seq<CartItem>, id: string) {
    exists i :: 0 <= i < |items| && items[i].id == id
  }

  predicate UniqueIds(items: seq<CartItem>) {
    forall i, j :: 0 <= i < j < |items| ==> items[i].id != items[j].id
  }

  /** Every entry with key `id` has its quantity increased by `q`; the others are kept. */
  function Incremented(items: seq<CartItem>, id: string, q: int): (r: seq<CartItem>)
    ensures |r| == |items|
    ensures forall i :: 0 <= i < |items| && items[i].id != id ==> r[i] == items[i]
    ensures forall i :: 0 <= i < |items| && items[i].id == id ==>
              r[i] == items[i].(quantity := items[i].quantity + q)
  {
    seq(|items|, i requires 0 <= i < |items| =>
      if items[i].id == id then items[i].(quantity := items[i].quantity + q) else items[i])
  }

  /** The new state after `addItem(item)`. */
  function Added(items: seq<CartItem>, item: NewItem): seq<CartItem> {
    var q := QuantityOrOne(item.quantity);
    if HasId(items, item.id) then Incremented(items, item.id, q)
    else items + [CartItem(item.id, item.itemType, item.name, item.unitPrice, q, item.bv)]
  }

  /** The new state after `removeItem(id)`: `prev.filter(i => i.id !== id)`. */
  function Removed(items: seq<CartItem>, id: string): (r: seq<CartItem>)
    ensures |r| <= |items|
  {
    if items == [] then []
    else (if items[0].id == id then [] else [items[0]]) + Removed(items[1..], id)
  }

  /** After `removeItem(id)` no entry has key `id`, and the entries kept are exactly the
      other entries of the cart. */
  lemma {:induction false} RemovedMembers(items: seq<CartItem>, id: string)
    ensures !HasId(Removed(items, id), id)
    ensures forall x :: x in Removed(items, id) <==> x in items && x.id != id
  {
    if items != [] {
      RemovedMembers(items[1..], id);
      var head: seq<CartItem> := if items[0].id == id then [] else [items[0]];
      var rest := Removed(items[1..], id);
      assert Removed(items, id) == head + rest;
      forall i | 0 <= i < |head + rest| ensures (head + rest)[i].id != id {
        if i >= |head| { assert (head + rest)[i] == rest[i - |head|]; }
      }
      assert items == [items[0]] + items[1..];
    }
  }

  /** Every entry with key `id` gets quantity `q`; the others are kept. */
  function QuantitySet(items: seq<CartItem>, id: string, q: int): (r: seq<CartItem>)
    ensures |r| == |items|
    ensures forall i :: 0 <= i < |items| && items[i].id != id ==> r[i] == items[i]
    ensures forall i :: 0 <= i < |items| && items[i].id == id ==> r[i] == items[i].(quantity := q)
  {
    seq(|items|, i requires 0 <= i < |items| =>
      if items[i].id == id then items[i].(quantity := q) else items[i])
  }

  /** The new state after `updateQuantity(id, qty)`. */
  function QuantityUpdated(items: seq<CartItem>, id: string, qty: int): seq<CartItem> {
    if qty <= 0 then Removed(items, id) else QuantitySet(items, id, qty)
  }

  function LineTotal(item: CartItem): int {
    item.unitPrice * item.quantity
  }

  /** `items.reduce((sum, i) => sum + i.unitPrice * i.quantity, 0)`, folded from the left. */
  function SumLineTotals(items: seq<CartItem>): int {
    if items == [] then 0 else SumLineTotals(items[..|items| - 1]) + LineTotal(items[|items| - 1])
  }

  /** `items.reduce((sum, i) => sum + i.quantity, 0)`, folded from the left. */
  function SumQuantities(items: seq<CartItem>): int {
    if items == [] then 0 else SumQuantities(items[..|items| - 1]) + items[|items| - 1].quantity
  }

  // ---------------------------------------------------------------------------------
  // addItem

  /** A new key appends exactly one entry, at the end, with quantity `quantity || 1`. */
  lemma {:induction false} AddNewAppends(items: seq<CartItem>, item: NewItem)
    requires !HasId(items, item.id)
    ensures var r := Added(items, item);
      |r| == |items| + 1 && r[..|items|] == items
      && r[|items|] == CartItem(item.id, item.itemType, item.name, item.unitPrice,
                                QuantityOrOne(item.quantity), item.bv)
  {
  }

  /** A known key adds `quantity || 1` to that entry only: length, order and all other
      entries are unchanged, and so are the entry's name, price and type. */
  lemma {:induction false} AddExistingMerges(items: seq<CartItem>, item: NewItem, k: nat)
    requires UniqueIds(items)
    requires k < |items| && items[k].id == item.id
    ensures var r := Added(items, item);
      |r| == |items|
      && r[k] == items[k].(quantity := items[k].quantity + QuantityOrOne(item.quantity))
      && forall j :: 0 <= j < |items| && j != k ==> r[j] == items[j]
  {
  }

  lemma {:induction false} AddedKeepsIdsUnique(items: seq<CartItem>, item: NewItem)
    requires UniqueIds(items)
    ensures UniqueIds(Added(items, item))
    ensures HasId(Added(items, item), item.id)
  {
    var r := Added(items, item);
    if !HasId(items, item.id) {
      assert r[|items|].id == item.id;
    } else {
      var k :| 0 <= k < |items| && items[k].id == item.id;
      assert r[k].id == item.id;
    }
  }

  // ---------------------------------------------------------------------------------
  // removeItem

  /** Filtering distributes over concatenation, so the kept entries stay in order. */
  lemma {:induction false} RemovedAppend(a: seq<CartItem>, b: seq<CartItem>, id: string)
    ensures Removed(a + b, id) == Removed(a, id) + Removed(b, id)
  {
    if a == [] {
      assert a + b == b;
    } else {
      assert (a + b)[1..] == a[1..] + b;
      RemovedAppend(a[1..], b, id);
    }
  }

  lemma {:induction false} RemovedAbsent(items: seq<CartItem>, id: string)
    requires !HasId(items, id)
    ensures Removed(items, id) == items
  {
    if items != [] {
      assert !HasId(items[1..], id) by {
        forall i | 0 <= i < |items[1..]| ensures items[1..][i].id != id {
          assert items[1..][i] == items[i + 1];
        }
      }
      RemovedAbsent(items[1..], id);
    }
  }

  /** With unique keys, the key at `k` occurs neither before nor after `k`. */
  lemma {:induction false} KeyOnlyAt(items: seq<CartItem>, k: nat)
    requires UniqueIds(items)
    requires k < |items|
    ensures !HasId(items[..k], items[k].id) && !HasId(items[k + 1..], items[k].id)
  {
    var id := items[k].id;
    forall i | 0 <= i < k ensures items[..k][i].id != id {
      assert items[..k][i] == items[i];
    }
    var post := items[k + 1..];
    forall i | 0 <= i < |post| ensures post[i].id != id {
      assert post[i] == items[k + 1 + i];
    }
  }

  lemma {:induction false} RemovedAround(pre: seq<CartItem>, x: CartItem, post: seq<CartItem>)
    requires !HasId(pre, x.id) && !HasId(post, x.id)
    ensures Removed(pre + [x] + post, x.id) == pre + post
  {
    RemovedAppend(pre + [x], post, x.id);
    RemovedAppend(pre, [x], x.id);
    RemovedAbsent(pre, x.id);
    RemovedAbsent(post, x.id);
    assert Removed([x], x.id) == [] by {
      assert [x][1..] == [];
    }
  }

  /** With unique keys, removing the entry at `k` keeps exactly the entries before and
      after it, in their original order. */
  lemma {:induction false} RemovedAt(items: seq<CartItem>, k: nat)
    requires UniqueIds(items)
    requires k < |items|
    ensures Removed(items, items[k].id) == items[..k] + items[k + 1..]
  {
    KeyOnlyAt(items, k);
    assert items == items[..k] + [items[k]] + items[k + 1..];
    RemovedAround(items[..k], items[k], items[k + 1..]);
  }

  /** A cart with a leading entry has unique ids exactly when its tail does and the
      leading id is not among the tail's. */
  lemma UniqueIdsCons(x: CartItem, t: seq<CartItem>)
    ensures UniqueIds([x] + t) <==> UniqueIds(t) && forall y :: y in t ==> y.id != x.id
  {
    var s := [x] + t;
    if UniqueIds(s) {
      forall i, j | 0 <= i < j < |t| ensures t[i].id != t[j].id {
        assert s[i + 1] == t[i] && s[j + 1] == t[j];
      }
      forall y | y in t ensures y.id != x.id {
        var j :| 0 <= j < |t| && t[j] == y;
        assert s[0] == x && s[j + 1] == y;
      }
    }
    if UniqueIds(t) && forall y :: y in t ==> y.id != x.id {
      forall i, j | 0 <= i < j < |s| ensures s[i].id != s[j].id {
        assert s[j] == t[j - 1] && s[j] in t;
        if i > 0 { assert s[i] == t[i - 1]; }
      }
    }
  }

  lemma {:induction false} RemovedKeepsIdsUnique(items: seq<CartItem>, id: string)
    requires UniqueIds(items)
    ensures UniqueIds(Removed(items, id))
  {
    if items != [] {
      var tail := items[1..];
      assert items == [items[0]] + tail;
      UniqueIdsCons(items[0], tail);
      RemovedKeepsIdsUnique(tail, id);
      var rest := Removed(tail, id);
      if items[0].id != id {
        RemovedMembers(tail, id);
        UniqueIdsCons(items[0], rest);
        assert Removed(items, id) == [items[0]] + rest;
      } else {
        assert Removed(items, id) == rest;
      }
    }
  }

  // ---------------------------------------------------------------------------------
  // updateQuantity

  /** A quantity of zero or less is exactly `removeItem`. */
  lemma {:induction false} UpdateNonPositiveRemoves(items: seq<CartItem>, id: string, qty: int)
    requires qty <= 0
    ensures QuantityUpdated(items, id, qty) == Removed(items, id)
  {
  }

  /** A positive quantity sets only that entry's quantity; an unknown key changes nothing. */
  lemma {:induction false} UpdatePositiveSets(items: seq<CartItem>, id: string, qty: int)
    requires qty > 0
    ensures var r := QuantityUpdated(items, id, qty);
      |r| == |items|
      && (forall i :: 0 <= i < |items| && items[i].id != id ==> r[i] == items[i])
      && (forall i :: 0 <= i < |items| && items[i].id == id ==>
            r[i].quantity == qty && r[i].(quantity := items[i].quantity) == items[i])
      && (!HasId(items, id) ==> r == items)
  {
  }

  lemma {:induction false} QuantityUpdatedKeepsIdsUnique(items: seq<CartItem>, id: string, qty: int)
    requires UniqueIds(items)
    ensures UniqueIds(QuantityUpdated(items, id, qty))
  {
    if qty <= 0 {
      RemovedKeepsIdsUnique(items, id);
    }
  }

  // ---------------------------------------------------------------------------------
  // total and itemCount

  lemma {:induction false} SumsAppend(a: seq<CartItem>, b: seq<CartItem>)
    ensures SumLineTotals(a + b) == SumLineTotals(a) + SumLineTotals(b)
    ensures SumQuantities(a + b) == SumQuantities(a) + SumQuantities(b)
    decreases |b|
  {
    if b == [] {
      assert a + b == a;
    } else {
      var b' := b[..|b| - 1];
      assert (a + b)[..|a + b| - 1] == a + b';
      SumsAppend(a, b');
    }
  }

  /** The sums over a list that differs from `items` at one position only. */
  lemma {:induction false} SumsChangeOne(items: seq<CartItem>, r: seq<CartItem>, k: nat)
    requires |r| == |items| && k < |items|
    requires forall j :: 0 <= j < |items| && j != k ==> r[j] == items[j]
    ensures SumLineTotals(r) == SumLineTotals(items) - LineTotal(items[k]) + LineTotal(r[k])
    ensures SumQuantities(r) == SumQuantities(items) - items[k].quantity + r[k].quantity
  {
    assert items == items[..k] + [items[k]] + items[k + 1..];
    assert r == r[..k] + [r[k]] + r[k + 1..];
    assert r[..k] == items[..k];
    assert r[k + 1..] == items[k + 1..];
    SumsAppend(items[..k] + [items[k]], items[k + 1..]);
    SumsAppend(items[..k], [items[k]]);
    SumsAppend(r[..k] + [r[k]], r[k + 1..]);
    SumsAppend(r[..k], [r[k]]);
    assert [items[k]][..0] == [] && [r[k]][..0] == [];
  }

  lemma {:induction false} AddedSumsExisting(items: seq<CartItem>, item: NewItem, k: nat)
    requires k < |items| && items[k].id == item.id
    requires UniqueIds(items)
    ensures var q := QuantityOrOne(item.quantity);
      var r := Added(items, item);
      SumQuantities(r) == SumQuantities(items) + q
      && SumLineTotals(r) == SumLineTotals(items) + items[k].unitPrice * q
  {
    var q := QuantityOrOne(item.quantity);
    var r := Added(items, item);
    assert HasId(items, item.id);
    assert r == Incremented(items, item.id, q);
    KeyOnlyAt(items, k);
    forall j | 0 <= j < |items| && j != k ensures r[j] == items[j] {
      if j < k { assert items[..k][j] == items[j]; } else { assert items[k + 1..][j - k - 1] == items[j]; }
    }
    SumsChangeOne(items, r, k);
    assert LineTotal(r[k]) == LineTotal(items[k]) + items[k].unitPrice * q by {
      assert r[k].quantity == items[k].quantity + q && r[k].unitPrice == items[k].unitPrice;
    }
  }

  lemma {:induction false} AddedSumsNew(items: seq<CartItem>, item: NewItem)
    requires !HasId(items, item.id)
    ensures var q := QuantityOrOne(item.quantity);
      var r := Added(items, item);
      SumQuantities(r) == SumQuantities(items) + q
      && SumLineTotals(r) == SumLineTotals(items) + item.unitPrice * q
  {
    var q := QuantityOrOne(item.quantity);
    var n := CartItem(item.id, item.itemType, item.name, item.unitPrice, q, item.bv);
    SumsAppend(items, [n]);
    assert [n][..0] == [];
  }

  /** Adding `quantity || 1` of an item raises `itemCount` by that much and `total` by that
      many times the unit price of the entry that receives it. */
  lemma {:induction false} AddedSums(items: seq<CartItem>, item: NewItem)
    requires UniqueIds(items)
    ensures var q := QuantityOrOne(item.quantity);
      var r := Added(items, item);
      SumQuantities(r) == SumQuantities(items) + q
      && (!HasId(items, item.id) ==> SumLineTotals(r) == SumLineTotals(items) + item.unitPrice * q)
      && (forall k :: 0 <= k < |items| && items[k].id == item.id ==>
            SumLineTotals(r) == SumLineTotals(items) + items[k].unitPrice * q)
  {
    if HasId(items, item.id) {
      var k :| 0 <= k < |items| && items[k].id == item.id;
      AddedSumsExisting(items, item, k);
      forall k' | 0 <= k' < |items| && items[k'].id == item.id
        ensures SumLineTotals(Added(items, item))
             == SumLineTotals(items) + items[k'].unitPrice * QuantityOrOne(item.quantity)
      {
        AddedSumsExisting(items, item, k');
      }
    } else {
      AddedSumsNew(items, item);
    }
  }

  /** Removing a present key lowers the sums by exactly that entry's contribution. */
  lemma {:induction false} RemovedSums(items: seq<CartItem>, k: nat)
    requires UniqueIds(items)
    requires k < |items|
    ensures SumLineTotals(Removed(items, items[k].id)) == SumLineTotals(items) - LineTotal(items[k])
    ensures SumQuantities(Removed(items, items[k].id)) == SumQuantities(items) - items[k].quantity
  {
    RemovedAt(items, k);
    assert items == items[..k] + [items[k]] + items[k + 1..];
    SumsAppend(items[..k] + [items[k]], items[k + 1..]);
    SumsAppend(items[..k], [items[k]]);
    SumsAppend(items[..k], items[k + 1..]);
    assert [items[k]][..0] == [];
  }

  /** The cart as the provider holds it. `localStorage` persistence is not modelled. */
  class CartProvider {
    var items: seq<CartItem>

    ghost predicate Valid()
      reads this
    {
      UniqueIds(items)
    }

    /** A provider starting from an empty cart. */
    constructor ()
      ensures Valid() && items == []
    {
      items := [];
    }

    /** `total`. */
    function Total(): int
      reads this
    {
      SumLineTotals(items)
    }

    /** `itemCount`. */
    function ItemCount(): int
      reads this
    {
      SumQuantities(items)
    }

    method AddItem(item: NewItem)
      requires Valid()
      modifies this
      ensures Valid()
      ensures items == Added(old(items), item)
      ensures HasId(items, item.id)
      ensures ItemCount() == old(ItemCount()) + QuantityOrOne(item.quantity)
      ensures !old(HasId(items, item.id)) ==> Total() == old(Total()) + item.unitPrice * QuantityOrOne(item.quantity)
      ensures forall k :: 0 <= k < |old(items)| && old(items)[k].id == item.id ==>
                Total() == old(Total()) + old(items)[k].unitPrice * QuantityOrOne(item.quantity)
    {
      AddedKeepsIdsUnique(items, item);
      AddedSums(items, item);
      items := Added(items, item);
    }

    method RemoveItem(id: string)
      requires Valid()
      modifies this
      ensures Valid()
      ensures items == Removed(old(items), id)
      ensures !HasId(items, id)
      ensures !old(HasId(items, id)) ==> items == old(items)
      ensures forall k :: 0 <= k < |old(items)| && old(items)[k].id == id ==>
                Total() == old(Total()) - LineTotal(old(items)[k])
                && ItemCount() == old(ItemCount()) - old(items)[k].quantity
    {
      RemovedKeepsIdsUnique(items, id);
      RemovedMembers(items, id);
      if !HasId(items, id) {
        RemovedAbsent(items, id);
      }
      forall k | 0 <= k < |items| && items[k].id == id
        ensures SumLineTotals(Removed(items, id)) == SumLineTotals(items) - LineTotal(items[k])
                && SumQuantities(Removed(items, id)) == SumQuantities(items) - items[k].quantity
      {
        RemovedSums(items, k);
      }
      items := Removed(items, id);
    }

    method UpdateQuantity(id: string, qty: int)
      requires Valid()
      modifies this
      ensures Valid()
      ensures items == QuantityUpdated(old(items), id, qty)
      ensures qty <= 0 ==> items == Removed(old(items), id)
    {
      if qty <= 0 {
        RemoveItem(id);
        return;
      }
      QuantityUpdatedKeepsIdsUnique(items, id, qty);
      items := QuantitySet(items, id, qty);
    }

    method ClearCart()
      requires Valid()
      modifies this
      ensures Valid()
      ensures items == [] && Total() == 0 && ItemCount() == 0
    {
      items := [];
    }
  }
}
