/**
 * The admin page's order and user lists: the case-insensitive search over orders and
 * profiles, the local status update of one order, and the expand / collapse toggle
 * that fetches an order's items only once.
 */
module AdminOrders {
  import opened Wrappers
  import Text
  import opened I18n

  datatype OrderRow = OrderRow(
    id: string,
    orderRef: string,
    customerName: string,
    customerEmail: string,
    country: string,
    currencyLabel: string,
    total: int,
    status: string,
    createdAt: string)

  datatype OrderItemRow = OrderItemRow(
    id: string,
    itemName: string,
    quantity: int,
    unitPrice: int,
    totalPrice: int,
    itemType: string)

  datatype ProfileRow = ProfileRow(
    id: string,
    userId: string,
    fullName: Option<string>,
    phone: Option<string>,
    city: Option<string>,
    country: Option<string>,
    createdAt: string)

  datatype Tab = OrdersTab | UsersTab

  /** The statuses offered by the status selector. */
  const StatusOptions: seq<string> := ["pending", "confirmed", "shipped", "delivered", "cancelled"]

  /** What the page shows before its lists. */
  datatype Screen = Loading | ToAuth(path: string) | ToDashboard(path: string) | Panel

  /** The guards in front of the panel: loading first, then sign-in, then the admin role. */
  function ScreenFor(lang: Lang, authLoading: bool, adminLoading: bool, signedIn: bool, isAdmin: bool): (s: Screen)
    ensures s == Panel <==> !authLoading && !adminLoading && signedIn && isAdmin
    ensures s.Loading? <==> authLoading || adminLoading
    ensures s.ToAuth? ==> s.path == "/" + LangCode(lang) + "/auth" && !signedIn
    ensures s.ToDashboard? ==> s.path == "/" + LangCode(lang) + "/dashboard" && signedIn && !isAdmin
  {
    if authLoading || adminLoading then Loading
    else if !signedIn then ToAuth("/" + LangCode(lang) + "/auth")
    else if !isAdmin then ToDashboard("/" + LangCode(lang) + "/dashboard")
    else Panel
  }

  // ---------------------------------------------------------------------------------
  // Status update

  /** `prev.map(o => o.id === orderId ? { ...o, status } : o)`. */
  function WithStatus(orders: seq<OrderRow>, orderId: string, status: string): (r: seq<OrderRow>)
    ensures |r| == |orders|
    ensures forall i :: 0 <= i < |r| ==> r[i].(status := orders[i].status) == orders[i]
    ensures forall i :: 0 <= i < |r| ==> r[i].status == if orders[i].id == orderId then status else orders[i].status
  {
    seq(|orders|, i requires 0 <= i < |orders| =>
      if orders[i].id == orderId then orders[i].(status := status) else orders[i])
  }

  /** Orders with another id are untouched, and every order with the id gets the status. */
  lemma WithStatusOnlyTouchesId(orders: seq<OrderRow>, orderId: string, status: string)
    ensures forall i :: 0 <= i < |orders| && orders[i].id != orderId ==> WithStatus(orders, orderId, status)[i] == orders[i]
    ensures forall i :: 0 <= i < |orders| && orders[i].id == orderId ==> WithStatus(orders, orderId, status)[i].status == status
    ensures WithStatus(orders, orderId, status) == orders <==>
              forall i :: 0 <= i < |orders| && orders[i].id == orderId ==> orders[i].status == status
  {
    var r := WithStatus(orders, orderId, status);
    if forall i :: 0 <= i < |orders| && orders[i].id == orderId ==> orders[i].status == status {
      forall i | 0 <= i < |orders| ensures r[i] == orders[i] {
        assert r[i].(status := orders[i].status) == orders[i];
      }
    }
  }

  /** A second update of the same order overrides the first. */
  lemma WithStatusLastWins(orders: seq<OrderRow>, orderId: string, s1: string, s2: string)
    ensures WithStatus(WithStatus(orders, orderId, s1), orderId, s2) == WithStatus(orders, orderId, s2)
  {
    var a := WithStatus(WithStatus(orders, orderId, s1), orderId, s2);
    var b := WithStatus(orders, orderId, s2);
    forall i | 0 <= i < |orders| ensures a[i] == b[i] {
      var m := WithStatus(orders, orderId, s1);
      assert a[i].(status := m[i].status) == m[i];
      assert m[i].(status := orders[i].status) == orders[i];
      assert b[i].(status := orders[i].status) == orders[i];
    }
  }

  /** Updates of two different orders can be applied in either order. */
  lemma WithStatusCommutes(orders: seq<OrderRow>, id1: string, s1: string, id2: string, s2: string)
    requires id1 != id2
    ensures WithStatus(WithStatus(orders, id1, s1), id2, s2) == WithStatus(WithStatus(orders, id2, s2), id1, s1)
  {
    var a := WithStatus(WithStatus(orders, id1, s1), id2, s2);
    var b := WithStatus(WithStatus(orders, id2, s2), id1, s1);
    forall i | 0 <= i < |orders| ensures a[i] == b[i] {
      var ma := WithStatus(orders, id1, s1);
      var mb := WithStatus(orders, id2, s2);
      assert a[i].(status := ma[i].status) == ma[i];
      assert ma[i].(status := orders[i].status) == orders[i];
      assert b[i].(status := mb[i].status) == mb[i];
      assert mb[i].(status := orders[i].status) == orders[i];
    }
  }

  // ---------------------------------------------------------------------------------
  // Search

  /** `field.toLowerCase().includes(search.toLowerCase())`. */
  predicate Matches(search: string, field: string) {
    Text.Includes(Text.ToLower(field), Text.ToLower(search))
  }

  predicate OrderMatches(search: string, o: OrderRow) {
    Matches(search, o.orderRef) || Matches(search, o.customerName) || Matches(search, o.customerEmail)
  }

  /** A missing full name is searched as the empty string; the user id is searched too. */
  predicate ProfileMatches(search: string, p: ProfileRow) {
    Matches(search, p.fullName.GetOr("")) || Matches(search, p.userId)
  }

  /** `filteredOrders`. */
  function FilterOrders(orders: seq<OrderRow>, search: string): (r: seq<OrderRow>)
    ensures |r| <= |orders|
    ensures forall o :: o in r <==> o in orders && OrderMatches(search, o)
  {
    if orders == [] then []
    else
      assert orders == [orders[0]] + orders[1..];
      (if OrderMatches(search, orders[0]) then [orders[0]] else []) + FilterOrders(orders[1..], search)
  }

  /** `filteredProfiles`. */
  function FilterProfiles(profiles: seq<ProfileRow>, search: string): (r: seq<ProfileRow>)
    ensures |r| <= |profiles|
    ensures forall p :: p in r <==> p in profiles && ProfileMatches(search, p)
  {
    if profiles == [] then []
    else
      assert profiles == [profiles[0]] + profiles[1..];
      (if ProfileMatches(search, profiles[0]) then [profiles[0]] else []) + FilterProfiles(profiles[1..], search)
  }

  /** The filter keeps the list's order: filtering a concatenation filters each part. */
  lemma {:induction false} FilterOrdersAppend(a: seq<OrderRow>, b: seq<OrderRow>, search: string)
    ensures FilterOrders(a + b, search) == FilterOrders(a, search) + FilterOrders(b, search)
  {
    if a == [] {
      assert a + b == b;
    } else {
      assert (a + b)[0] == a[0] && (a + b)[1..] == a[1..] + b;
      FilterOrdersAppend(a[1..], b, search);
    }
  }

  lemma {:induction false} FilterProfilesAppend(a: seq<ProfileRow>, b: seq<ProfileRow>, search: string)
    ensures FilterProfiles(a + b, search) == FilterProfiles(a, search) + FilterProfiles(b, search)
  {
    if a == [] {
      assert a + b == b;
    } else {
      assert (a + b)[0] == a[0] && (a + b)[1..] == a[1..] + b;
      FilterProfilesAppend(a[1..], b, search);
    }
  }

  lemma EverythingMatchesEmpty(field: string)
    ensures Matches("", field)
  {
    Text.IncludesEmpty(Text.ToLower(field));
  }

  /** An empty search keeps every order. */
  lemma {:induction false} EmptySearchKeepsOrders(orders: seq<OrderRow>)
    ensures FilterOrders(orders, "") == orders
  {
    if orders != [] {
      EverythingMatchesEmpty(orders[0].orderRef);
      EmptySearchKeepsOrders(orders[1..]);
    }
  }

  /** An empty search keeps every profile. */
  lemma {:induction false} EmptySearchKeepsProfiles(profiles: seq<ProfileRow>)
    ensures FilterProfiles(profiles, "") == profiles
  {
    if profiles != [] {
      EverythingMatchesEmpty(profiles[0].userId);
      EmptySearchKeepsProfiles(profiles[1..]);
    }
  }

  /** The search ignores the case of what is typed. */
  lemma SearchIgnoresCase(search: string, field: string)
    ensures Matches(Text.ToLower(search), field) <==> Matches(search, field)
  {
    Text.ToLowerIdempotent(search);
  }

  lemma {:induction false} FilterOrdersIgnoresCase(orders: seq<OrderRow>, search: string)
    ensures FilterOrders(orders, Text.ToLower(search)) == FilterOrders(orders, search)
  {
    if orders != [] {
      SearchIgnoresCase(search, orders[0].orderRef);
      SearchIgnoresCase(search, orders[0].customerName);
      SearchIgnoresCase(search, orders[0].customerEmail);
      FilterOrdersIgnoresCase(orders[1..], search);
    }
  }

  // ---------------------------------------------------------------------------------
  // Page state

  class AdminPage {
    var tab: Tab
    var orders: seq<OrderRow>
    var profiles: seq<ProfileRow>
    var search: string
    var expandedOrder: Option<string>
    /** Items fetched so far, by order id. */
    var orderItems: map<string, seq<OrderItemRow>>
    /** The status updates sent to the backend, oldest first. */
    var sentUpdates: seq<(string, string)>

    /** The page once the orders and profiles have been fetched. */
    constructor (orders: seq<OrderRow>, profiles: seq<ProfileRow>)
      ensures this.orders == orders && this.profiles == profiles
      ensures tab == OrdersTab && search == "" && expandedOrder.None? && orderItems == map[] && sentUpdates == []
    {
      tab := OrdersTab;
      this.orders := orders;
      this.profiles := profiles;
      search := "";
      expandedOrder := None;
      orderItems := map[];
      sentUpdates := [];
    }

    function FilteredOrders(): seq<OrderRow>
      reads this
    {
      FilterOrders(orders, search)
    }

    function FilteredProfiles(): seq<ProfileRow>
      reads this
    {
      FilterProfiles(profiles, search)
    }

    /** The tab buttons: switching tab clears the search, so the new list shows in full. */
    method SelectTab(t: Tab)
      modifies this
      ensures tab == t && search == ""
      ensures FilteredOrders() == orders && FilteredProfiles() == profiles
      ensures orders == old(orders) && profiles == old(profiles)
      ensures expandedOrder == old(expandedOrder) && orderItems == old(orderItems) && sentUpdates == old(sentUpdates)
    {
      tab := t;
      search := "";
      EmptySearchKeepsOrders(orders);
      EmptySearchKeepsProfiles(profiles);
    }

    method SetSearch(s: string)
      modifies this
      ensures search == s
      ensures forall o :: o in FilteredOrders() <==> o in orders && OrderMatches(s, o)
      ensures tab == old(tab) && orders == old(orders) && profiles == old(profiles)
      ensures expandedOrder == old(expandedOrder) && orderItems == old(orderItems) && sentUpdates == old(sentUpdates)
    {
      search := s;
    }

    /** `updateOrderStatus`: the update is sent, then the local list changes the status of
        that order only. */
    method UpdateOrderStatus(orderId: string, status: string)
      modifies this
      ensures sentUpdates == old(sentUpdates) + [(orderId, status)]
      ensures orders == WithStatus(old(orders), orderId, status)
      ensures forall i :: 0 <= i < |orders| && old(orders)[i].id != orderId ==> orders[i] == old(orders)[i]
      ensures tab == old(tab) && search == old(search) && profiles == old(profiles)
      ensures expandedOrder == old(expandedOrder) && orderItems == old(orderItems)
    {
      sentUpdates := sentUpdates + [(orderId, status)];
      WithStatusOnlyTouchesId(orders, orderId, status);
      orders := WithStatus(orders, orderId, status);
    }

    /** `toggleOrderItems`: the expanded order collapses; any other order expands, its
        items fetched only when none are cached for it. `fetched` is what the fetch
        returns (nothing when it fails). */
    method ToggleOrderItems(orderId: string, fetched: Option<seq<OrderItemRow>>) returns (fetchedCalled: bool)
      modifies this
      ensures old(expandedOrder) == Some(orderId) ==>
        expandedOrder.None? && !fetchedCalled && orderItems == old(orderItems)
      ensures old(expandedOrder) != Some(orderId) ==>
        && expandedOrder == Some(orderId)
        && (fetchedCalled <==> orderId !in old(orderItems))
        && (fetchedCalled && fetched.Some? ==> orderItems == old(orderItems)[orderId := fetched.value])
        && (!fetchedCalled || fetched.None? ==> orderItems == old(orderItems))
      ensures tab == old(tab) && search == old(search) && orders == old(orders) && profiles == old(profiles)
      ensures sentUpdates == old(sentUpdates)
    {
      if expandedOrder == Some(orderId) {
        expandedOrder := None;
        return false;
      }
      fetchedCalled := false;
      if orderId !in orderItems {
        fetchedCalled := true;
        if fetched.Some? {
          orderItems := orderItems[orderId := fetched.value];
        }
      }
      expandedOrder := Some(orderId);
    }
  }
}
