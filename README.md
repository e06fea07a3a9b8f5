# PHI & Marketplaces storefront and stock consoles, in Dafny

This project models the client-side logic of the PHI & Marketplaces web shop and proves
properties of it. It covers:

- the shopping cart held by the cart provider;
- the country price tables;
- checkout submission;
- the admin order list;
- the country and language selection;
- the two stock consoles (admin and shop owner), which write the inventory ledger.

The backend is a collaborator here. It is a `Datastore` object:
- an append-only movement log;
- the inventory table, keyed on (shop, product);
- a map of replenishments;
- the replenishment line items.

The ledger's rule "current stock = sum of the movements" belongs to the hosted
`get_shop_stock` function, whose body is not part of this repository. It is stated as an
assumed contract. The DRAFT→RECEIVED transition of `receive_replenishment` is stated the
same way.

Files:

- `wrappers.dfy`: the `Option` type.
- `text.dfy`: the JavaScript string operations the pages use: `startsWith`, `indexOf`,
  `includes`, `replace` with a string pattern and a replacement without `$`,
  `toLowerCase`, `trim`.
- `i18n.dfy`: the two interface languages.
- `pricing.dfy`: `PRICING`, `KIT_PRICING` and their lookups. The 2.7 naira rate is the
  exact ratio 27/10. Formatting is kept abstract as a `Money` value.
- `cart.dfy`: the cart reducer (`addItem`, `removeItem`, `updateQuantity`, `clearCart`,
  `total`, `itemCount`) as pure transforms, plus the `CartProvider` class that applies them.
- `ledger.dfy`: movement types, replenishment status, the stock fold, the upsert on
  (shop_id, product_key), and the `Datastore` class.
- `stock_console.dfy`: what both stock consoles share:
  - the OUT/LOW/OK classifier and the low-stock counter;
  - the restock form and its input coercion;
  - restock submission (one DRAFT replenishment, one item per positive entry, one receive);
  - product initialisation.
- `admin_stock_tab.dfy`, `owner_stock_tab.dfy`: the two console components as classes.
- `checkout.dfy`: validation, the order row, the order-item rows, and the sequencing of
  the two inserts and `clearCart`.
- `admin_orders.dfy`: the status update, the search filters, the expand/collapse toggle
  with its cache, and the access guards.
- `country.dfy`: the country provider (saved value, timezone heuristic, `setCountry`).
- `header.dfy`: the language switch, the navigation paths and the active test.

## Model

| member | source | states |
|---|---|---|
| Cart.QuantityOrOne | src/hooks/use-cart.tsx:53-56 | `item.quantity \|\| 1`: a present non-zero quantity is kept; an absent or zero quantity becomes 1 |
| Cart.Incremented | src/hooks/use-cart.tsx:52-54 | same length; entries with the key gain `q`; every other entry is unchanged |
| Cart.AddNewAppends | src/hooks/use-cart.tsx:56 | adding a new id appends exactly one entry at the end, with quantity `quantity \|\| 1`; the old entries stay as a prefix |
| Cart.AddExistingMerges | src/hooks/use-cart.tsx:50-55 | adding a known id adds `quantity \|\| 1` to that entry only; length, order and the other entries are unchanged |
| Cart.AddedKeepsIdsUnique | src/hooks/use-cart.tsx:48-58 | `addItem` keeps ids unique, and the id is present afterwards |
| Cart.Removed | src/hooks/use-cart.tsx:60 | filtering never lengthens the cart |
| Cart.RemovedMembers | src/hooks/use-cart.tsx:60 | after `removeItem(id)` no entry has the id; the kept entries are exactly the other entries |
| Cart.RemovedAppend | src/hooks/use-cart.tsx:60 | the filter distributes over concatenation, so the kept entries keep their order |
| Cart.RemovedAbsent | src/hooks/use-cart.tsx:60 | removing an absent id leaves the cart unchanged |
| Cart.RemovedAt | src/hooks/use-cart.tsx:60 | with unique ids, removing the id at position k leaves exactly the entries before and after k |
| Cart.RemovedKeepsIdsUnique | src/hooks/use-cart.tsx:60 | `removeItem` keeps ids unique |
| Cart.QuantitySet | src/hooks/use-cart.tsx:64 | same length; entries with the key get quantity `q`; every other entry is unchanged |
| Cart.UpdateNonPositiveRemoves | src/hooks/use-cart.tsx:63 | `updateQuantity(id, q)` with q ≤ 0 is exactly `removeItem(id)` |
| Cart.UpdatePositiveSets | src/hooks/use-cart.tsx:64 | with q > 0 only that entry's quantity changes; an unknown id leaves the cart unchanged |
| Cart.QuantityUpdatedKeepsIdsUnique | src/hooks/use-cart.tsx:62-65 | `updateQuantity` keeps ids unique |
| Cart.SumsAppend | src/hooks/use-cart.tsx:69-70 | both reduce folds are additive over concatenation |
| Cart.SumsChangeOne | src/hooks/use-cart.tsx:69-70 | changing one entry changes each fold by that entry's difference |
| Cart.AddedSums | src/hooks/use-cart.tsx:48-58 | `addItem` raises `itemCount` by `quantity \|\| 1` and `total` by unit price times that |
| Cart.RemovedSums | src/hooks/use-cart.tsx:60 | removing a present id lowers `total` and `itemCount` by exactly that entry's contribution |
| Cart.CartProvider.AddItem | src/hooks/use-cart.tsx:48-58 | the new state is the added list; ids stay unique; the id is present; `itemCount` rises by `quantity \|\| 1`; `total` rises by that many times the unit price of the entry receiving it |
| Cart.CartProvider.RemoveItem | src/hooks/use-cart.tsx:60 | the new state is the filtered list; no entry has the id; an absent id changes nothing; a present id lowers `total` and `itemCount` by its entry's contribution |
| Cart.CartProvider.UpdateQuantity | src/hooks/use-cart.tsx:62-65 | the new state is the updated list; q ≤ 0 is the filtered list |
| Cart.CartProvider.ClearCart | src/hooks/use-cart.tsx:67-70 | the cart is empty, and `total` and `itemCount` are 0 |
| Pricing.GetRawPrice | src/lib/pricing.ts:61-69 | 0 for a key that is not in the table and not an inherited property name |
| Pricing.GetProductPrice | src/lib/pricing.ts:40-55 | an unknown key shows "—" with no secondary; a secondary price appears exactly for a known key in Nigeria |
| Pricing.GetKitPrice | src/lib/pricing.ts:86-94 | 0 for a key that is not in the kit table and not an inherited property name |
| Pricing.FormatKitPrice | src/lib/pricing.ts:96-100 | formatted in naira exactly when the country is NG; the amount is `getKitPrice` |
| Pricing.NigerianReferenceIsBasePrice | src/lib/pricing.ts:36-49 | for Nigeria the parenthesised FCFA reference is the price other countries pay, and the naira price is that reference times 2.7 |
| Pricing.DisplayedPriceIsRawPrice | src/lib/pricing.ts:40-69 | the primary price shown for a known product is the cart price: NG_INFO_NGN in naira for NG, CIV_FCFA for CIV, OTHER_FCFA otherwise |
| Pricing.ProductKeysAreTableKeys | src/components/admin/AdminStockTab.tsx:20 | `Object.keys(PRICING)` lists every table key exactly once |
| Pricing.ProductTableInvariants | src/lib/pricing.ts:10-24 | for every product, OTHER equals the NG base; NGN × 10 = NG base × 27; the CIV price is positive and not above the NG base |
| Pricing.RawPriceConversion | src/lib/pricing.ts:24 | the NG cart price is the OTHER cart price at 2.7, for every key (0 = 0 for unknown keys) |
| Pricing.KitTableInvariants | src/lib/pricing.ts:78-84 | for every kit, NG equals OTHER, and CIV is positive and not above NG |
| Pricing.KitPriceNgEqualsOther | src/lib/pricing.ts:86-94 | `getKitPrice` agrees for NG and OTHER on every key |
| Ledger.StockOfAppend | src/integrations/supabase/types.ts:585-592 | the stock sum is additive over the movement log |
| Ledger.StockAfterMovement | src/integrations/supabase/types.ts:585-592 | appending one movement changes its own pair's stock by its quantity and no other pair's |
| Ledger.StockOrderIndependent | src/integrations/supabase/types.ts:585-592 | the stock does not depend on the order in which writers appended |
| Ledger.Upserted | src/components/admin/AdminStockTab.tsx:57-60 | an upsert keeps the table size for a known pair and adds one row otherwise |
| Ledger.UpsertedHasPair | src/components/admin/AdminStockTab.tsx:57-60 | the upserted (shop, product) pair is present afterwards |
| Ledger.UpsertedMembers | src/components/admin/AdminStockTab.tsx:57-60 | rows of other pairs are kept and nothing else appears; the pair's row is the new row or, without overwrite, the old one |
| Ledger.UpsertedUnique | src/components/admin/AdminStockTab.tsx:57-60 | no (shop, product) pair ever gets a second row |
| Ledger.UpsertedIdempotent | src/components/admin/AdminStockTab.tsx:57-60 | upserting the same row twice changes nothing more |
| Ledger.ItemsOf | src/integrations/supabase/types.ts:604-607 | the items of one replenishment are exactly the line items that carry its id |
| Ledger.ItemsOfAppend | src/integrations/supabase/types.ts:604-607 | selecting by replenishment distributes over concatenation |
| Ledger.RestockMovements | src/integrations/supabase/types.ts:604-607 | one RESTOCK movement per line item, in order |
| Ledger.ShopStock | src/integrations/supabase/types.ts:585-592 | every row's stock is the sum of the pair's movements; every inventory item of the shop has a row |
| Ledger.ShopMovements | src/components/admin/AdminStockTab.tsx:44-47 | exactly the shop's movements, in log order |
| Ledger.NewestFirst | src/components/admin/AdminStockTab.tsx:44-48 | the shop's movements in reverse log order, i.e. newest first, with the same length |
| Ledger.NewestFirstMembers | src/components/admin/AdminStockTab.tsx:44-48 | a movement is listed iff it is in the log and belongs to the shop |
| Ledger.RecentMovements | src/components/admin/AdminStockTab.tsx:44-50 | the first `limit` entries of the newest-first list, or all of them when there are fewer; all of that shop |
| Ledger.NewestMovementFirst | src/components/admin/AdminStockTab.tsx:48 | a movement just appended for the shop heads its movement list |
| Ledger.Datastore.InsertMovement | src/components/admin/AdminStockTab.tsx:93-96 | the log gains exactly that movement at its end; nothing else changes |
| Ledger.Datastore.UpsertInventoryItem | src/components/admin/AdminStockTab.tsx:57-60 | the table is the upserted table and holds the pair; nothing else changes |
| Ledger.Datastore.InsertReplenishment | src/components/admin/AdminStockTab.tsx:70-76 | when the insert returns a row, it is under a fresh id; otherwise nothing changes |
| Ledger.Datastore.InsertReplenishmentItem | src/components/admin/AdminStockTab.tsx:79-81 | the item is appended to the line items; nothing else changes |
| Ledger.Datastore.ReceiveReplenishment | src/integrations/supabase/types.ts:604-607 | succeeds exactly on a DRAFT; it becomes RECEIVED and one RESTOCK movement per line item is appended; otherwise nothing changes |
| StockConsole.GetStatus | src/components/admin/AdminStockTab.tsx:100-104 | Out iff stock ≤ 0; Low iff 0 < stock ≤ reorder level; Ok iff stock is positive and above the reorder level |
| StockConsole.LowStockCount | src/components/dashboard/OwnerStockTab.tsx:94 | the counter never exceeds the number of rows |
| StockConsole.LowStockCountsOutAndLow | src/components/dashboard/OwnerStockTab.tsx:88-94 | with non-negative reorder levels, the counter is exactly the number of Out and Low rows |
| StockConsole.OutRowNotCountedBelowZeroLevel | src/components/dashboard/OwnerStockTab.tsx:94 | with a negative reorder level, an Out row is not counted |
| StockConsole.SetEntry | src/components/admin/AdminStockTab.tsx:237 | the key holds the new value; other keys' entries are kept; nothing else appears |
| StockConsole.SetEntryKeepsKeysUnique | src/components/admin/AdminStockTab.tsx:237 | the form keeps one entry per key, and the key's only entry is the new value |
| StockConsole.CoerceInput | src/components/admin/AdminStockTab.tsx:237 | input that is not a number becomes 0; a number is kept |
| StockConsole.PositiveEntries | src/components/admin/AdminStockTab.tsx:67 | exactly the entries with a quantity above 0 |
| StockConsole.NonNumericInputNeverSubmitted | src/components/admin/AdminStockTab.tsx:67 | input that is not a number is never among the submitted entries |
| StockConsole.ReplenishmentLines | src/components/admin/AdminStockTab.tsx:78-82 | one line per positive entry, in order, with its key and quantity and unit cost 0 |
| StockConsole.EnteredAbsent | src/components/admin/AdminStockTab.tsx:67 | a key without an entry adds nothing |
| StockConsole.EnteredSingle | src/components/admin/AdminStockTab.tsx:67 | with one entry per key, the quantity submitted for a key is its entry if positive, else 0 |
| StockConsole.RestockAddsEntered | src/components/admin/AdminStockTab.tsx:67-84 | receiving the submitted lines raises each product's stock by exactly what was entered |
| StockConsole.SubmittedStock | src/components/admin/AdminStockTab.tsx:67-84 | appended to any log, the submitted movements add exactly the entered quantity for each key |
| StockConsole.ItemsOfFresh | src/components/admin/AdminStockTab.tsx:78-84 | the items of a new replenishment are exactly the lines just written |
| StockConsole.InsertLines | src/components/admin/AdminStockTab.tsx:78-82 | the loop appends the lines in order and changes nothing else |
| StockConsole.SubmitReplenishment | src/components/admin/AdminStockTab.tsx:67-84 | writes iff there is a positive entry and the DRAFT insert returns a row; otherwise nothing changes; on success one RECEIVED replenishment, its lines, and each key's stock raised by what was entered |
| StockConsole.ReceiveDraft | src/components/admin/AdminStockTab.tsx:78-84 | lines written, then one receive: DRAFT→RECEIVED, the RESTOCK movements appended, stock raised by what was entered |
| StockConsole.UpsertedKeepsPair | src/components/admin/AdminStockTab.tsx:56-61 | a later upsert never removes an earlier pair |
| StockConsole.UpsertKeys | src/components/admin/AdminStockTab.tsx:56-61 | after the loop every key has a row for the shop; the table is the upsert of each key in order; nothing else changes |
| StockConsole.InitializeProducts | src/components/admin/AdminStockTab.tsx:54-61 | every catalogue product has a row for the shop afterwards, with unique pairs |
| AdminStock.SupplierOrNull | src/components/admin/AdminStockTab.tsx:72 | the empty supplier name becomes null; any other name is kept |
| AdminStock.AdminStockTab.constructor | src/components/admin/AdminStockTab.tsx:24-32 | no shop, empty lists, stock view, empty form and supplier |
| AdminStock.AdminStockTab.FetchStock | src/components/admin/AdminStockTab.tsx:38-52 | with no shop nothing changes; otherwise the stock rows and the newest 100 movements of the shop |
| AdminStock.AdminStockTab.SelectShop | src/components/admin/AdminStockTab.tsx:34-36 | the shop is set; a change to a non-empty shop fetches it; otherwise the lists are kept |
| AdminStock.AdminStockTab.SetView | src/components/admin/AdminStockTab.tsx:121-128 | only the view changes |
| AdminStock.AdminStockTab.SetSupplierName | src/components/admin/AdminStockTab.tsx:229 | only the supplier name changes |
| AdminStock.AdminStockTab.SetRestockInput | src/components/admin/AdminStockTab.tsx:237 | the form takes the coerced value under the key and keeps one entry per key |
| AdminStock.AdminStockTab.InitializeStock | src/components/admin/AdminStockTab.tsx:54-63 | no-op without a shop, with the stock and movement lists unchanged; otherwise every product has a row for the shop, then the stock and the newest 100 movements are fetched again |
| AdminStock.AdminStockTab.HandleRestock | src/components/admin/AdminStockTab.tsx:65-89 | submits iff a shop is chosen, an entry is positive and the insert returns a row; on success a fresh RECEIVED replenishment, one line per positive entry, exactly their RESTOCK movements appended, each key's stock raised by what was entered, the form, supplier and view reset, and stock and movements refetched; otherwise no table, list or form field changes |
| AdminStock.AdminStockTab.AddAdjustment | src/components/admin/AdminStockTab.tsx:91-98 | no-op without a shop; otherwise exactly one ADJUSTMENT movement is appended, the stock changes by its quantity and stock and movements are refetched; no other table or field changes |
| AdminStock.AdminStockTab.ClickPlusOne | src/components/admin/AdminStockTab.tsx:172 | with a shop, exactly one ADJUSTMENT of +1 noted "Admin +1" is appended, the stock rises by 1 and the lists are refetched; no other table or field changes |
| AdminStock.AdminStockTab.ClickMinusOne | src/components/admin/AdminStockTab.tsx:173-175 | writes only when the shown stock is positive and a shop is chosen; then exactly one ADJUSTMENT of -1 noted "Admin -1" is appended and the stock drops by 1; a row showing the current non-negative stock never goes negative; no other table or field changes |
| OwnerStock.OwnerStockTab.constructor | src/components/dashboard/OwnerStockTab.tsx:29-44 | mounting fetches the shop's stock and its newest 50 movements |
| OwnerStock.OwnerStockTab.LowStockBadge | src/components/dashboard/OwnerStockTab.tsx:94 | at most the number of rows; with non-negative reorder levels, exactly the Out and Low rows |
| OwnerStock.OwnerStockTab.FetchStock | src/components/dashboard/OwnerStockTab.tsx:31-44 | the stock rows and the newest 50 movements of the shop |
| OwnerStock.OwnerStockTab.SetView | src/components/dashboard/OwnerStockTab.tsx:99-106 | only the view changes |
| OwnerStock.OwnerStockTab.SetRestockInput | src/components/dashboard/OwnerStockTab.tsx:206 | the form takes the coerced value under the key and keeps one entry per key |
| OwnerStock.OwnerStockTab.InitializeStock | src/components/dashboard/OwnerStockTab.tsx:46-54 | every product has a row for the shop, then the stock and the newest 50 movements are fetched again |
| OwnerStock.OwnerStockTab.HandleRestock | src/components/dashboard/OwnerStockTab.tsx:56-78 | submits iff an entry is positive and the insert returns a row, authored by the user with no supplier; on success a fresh RECEIVED replenishment, one line per positive entry, exactly their RESTOCK movements appended, each key's stock raised by what was entered, the form and view reset, and stock and movements refetched; otherwise no table, list or form field changes |
| OwnerStock.OwnerStockTab.AddMovement | src/components/dashboard/OwnerStockTab.tsx:80-86 | exactly one ADJUSTMENT movement with the note and the user is appended, the stock changes by its quantity and stock and movements are refetched |
| OwnerStock.OwnerStockTab.ClickPlusOne | src/components/dashboard/OwnerStockTab.tsx:144 | exactly one ADJUSTMENT of +1 noted "Owner +1" by the user is appended, the stock rises by 1 and the lists are refetched; no other table or field changes |
| OwnerStock.OwnerStockTab.ClickMinusOne | src/components/dashboard/OwnerStockTab.tsx:145-147 | writes only when the shown stock is positive; then exactly one ADJUSTMENT of -1 noted "Owner -1" by the user is appended and the stock drops by 1; a row showing the current non-negative stock never goes negative; no other table or field changes |
| I18n.LangCode | src/i18n/index.ts:5 | the two-letter code, "fr" exactly for French and "en" exactly for English |
| Checkout.SetField | src/pages/Checkout.tsx:38-39 | the named field takes the value and the others are kept |
| Checkout.RequiredMissingIffBlank | src/pages/Checkout.tsx:43 | the submission is refused exactly when the name or the e-mail is all whitespace |
| Checkout.OptionalText | src/pages/Checkout.tsx:60-62 | null exactly for an all-whitespace field; otherwise the trimmed, non-empty text |
| Checkout.UserIdOrNull | src/pages/Checkout.tsx:57 | the user id when there is a non-empty one, else null |
| Checkout.CurrencyLabel | src/pages/Checkout.tsx:51 | "FCFA" whatever the country |
| Checkout.BuildOrder | src/pages/Checkout.tsx:55-67 | trimmed name and e-mail; blank phone, address and city become null; subtotal = total = cart total; status "pending"; label "FCFA" |
| Checkout.BuildOrderItems | src/pages/Checkout.tsx:78-86 | one row per cart line, in cart order, each built from its line |
| Checkout.OrderItemsSumToTotal | src/pages/Checkout.tsx:65-85 | the item rows' total prices add up to the cart total sent as the order total |
| Checkout.OrderErrorMessage | src/pages/Checkout.tsx:73 | the backend's message when there is one, else a non-empty fallback |
| Checkout.CheckoutPage.constructor | src/pages/Checkout.tsx:23-31 | empty form, not loading, no error, no navigation |
| Checkout.CheckoutPage.Render | src/pages/Checkout.tsx:33-36 | the form shows iff the cart is not empty; an empty cart navigates to the cart page |
| Checkout.CheckoutPage.HandleChange | src/pages/Checkout.tsx:38-39 | only the named field of the form changes |
| Checkout.CheckoutPage.HandleSubmit | src/pages/Checkout.tsx:41-98 | a blank name or e-mail shows the message and sends nothing; otherwise the built order is sent; a failed order insert shows its error and keeps the cart; otherwise the item rows are sent and the cart is cleared only if they succeed |
| Checkout.CheckoutPage.PlaceOrder | src/pages/Checkout.tsx:53-97 | sends the order; a failed insert shows its error, stops loading and keeps the cart; otherwise the item rows for the new id are sent |
| Checkout.CheckoutPage.InsertItems | src/pages/Checkout.tsx:88-97 | an item-insert error is shown and the cart kept; otherwise the cart is empty with total 0 and the page goes to the confirmation path |
| AdminOrders.ScreenFor | src/pages/Admin.tsx:105-110 | the panel shows iff nothing is loading and the user is a signed-in admin; otherwise loading, or a redirect to sign-in or to the dashboard |
| AdminOrders.WithStatus | src/pages/Admin.tsx:87 | same length; only the status field changes, and only for orders with the id |
| AdminOrders.WithStatusOnlyTouchesId | src/pages/Admin.tsx:87 | other orders are untouched; orders with the id get the status; the list is unchanged iff those orders already had it |
| AdminOrders.WithStatusLastWins | src/pages/Admin.tsx:85-88 | a second update of the same order overrides the first |
| AdminOrders.WithStatusCommutes | src/pages/Admin.tsx:85-88 | updates of two different orders commute |
| AdminOrders.FilterOrders | src/pages/Admin.tsx:112-117 | an order is kept iff the lowercased search is in its lowercased ref, name or e-mail |
| AdminOrders.FilterProfiles | src/pages/Admin.tsx:119-123 | a profile is kept iff the search is in its full name (null as "") or its user id |
| AdminOrders.FilterOrdersAppend | src/pages/Admin.tsx:112-117 | the filter keeps list order: it distributes over concatenation |
| AdminOrders.FilterProfilesAppend | src/pages/Admin.tsx:119-123 | the filter keeps list order: it distributes over concatenation |
| AdminOrders.EmptySearchKeepsOrders | src/pages/Admin.tsx:112-117 | an empty search keeps every order |
| AdminOrders.EmptySearchKeepsProfiles | src/pages/Admin.tsx:119-123 | an empty search keeps every profile |
| AdminOrders.SearchIgnoresCase | src/pages/Admin.tsx:114 | the case of the search text does not matter |
| AdminOrders.FilterOrdersIgnoresCase | src/pages/Admin.tsx:112-117 | the filtered list is the same whatever the case of the search |
| AdminOrders.AdminPage.constructor | src/pages/Admin.tsx:54-59 | orders tab, empty search, nothing expanded, empty cache |
| AdminOrders.AdminPage.SelectTab | src/pages/Admin.tsx:139-146 | the tab changes and the search is cleared, so both lists show in full |
| AdminOrders.AdminPage.SetSearch | src/pages/Admin.tsx:156-157 | the search changes and the shown orders are exactly the matching ones |
| AdminOrders.AdminPage.UpdateOrderStatus | src/pages/Admin.tsx:85-88 | the update is sent once; the local list changes only that order's status |
| AdminOrders.AdminPage.ToggleOrderItems | src/pages/Admin.tsx:90-103 | the expanded order collapses without fetching; another order expands, and its items are fetched only when not cached |
| CountryContext.CountryCode | src/lib/pricing.ts:1 | each country's stored spelling, distinct for the three |
| CountryContext.InitialCountry | src/hooks/use-country.tsx:17-21 | a saved "NG", "CIV" or "OTHER" is taken; anything else gives CIV |
| CountryContext.SavedCountryReadBack | src/hooks/use-country.tsx:46-49 | what `setCountry` saves reads back as the same country |
| CountryContext.ClassifyTimezone | src/hooks/use-country.tsx:33-39 | NG iff the zone starts with "Africa/Lagos"; CIV iff it starts with "Africa/Abidjan" and not Lagos; OTHER otherwise |
| CountryContext.TimezonePrefixesExclusive | src/hooks/use-country.tsx:33-36 | no zone starts with both prefixes |
| CountryContext.CountryProvider.constructor | src/hooks/use-country.tsx:17-22 | the initial country from the saved value; not yet detected |
| CountryContext.CountryProvider.Detect | src/hooks/use-country.tsx:24-44 | any saved value, or a failed timezone read, keeps the country; otherwise it is the timezone's class; detection ends marked done |
| CountryContext.CountryProvider.SetCountry | src/hooks/use-country.tsx:46-49 | the state becomes c and exactly c is saved |
| CountryContext.CountryProvider.Render | src/hooks/use-country.tsx:51-56 | nothing renders until detection is done; then the current country is provided |
| CountryContext.StartWithUnknownSaved | src/hooks/use-country.tsx:17-29 | an invalid saved value starts at CIV and skips detection |
| Header.OtherLang | src/components/Header.tsx:13 | the other language is never the current one |
| Header.OtherLangInvolution | src/components/Header.tsx:13 | applying it twice gives back the language |
| Header.LangPrefix | src/components/Header.tsx:16 | three characters: "/" followed by the language's two-letter code |
| Header.SwitchPath | src/components/Header.tsx:25 | a path without "/"+lang is unchanged |
| Header.SwitchPathFirstOnly | src/components/Header.tsx:25 | only the first occurrence of "/"+lang is replaced; what is before and after it is kept |
| Header.SwitchPathPrefix | src/components/Header.tsx:25 | a path starting with "/"+lang becomes "/"+otherLang followed by the same suffix |
| Header.SwitchPathRoundTrip | src/components/Header.tsx:25 | switching twice comes back to the path |
| Header.NavItems | src/components/Header.tsx:15-23 | seven items; every path starts with "/"+lang; the first is the home path |
| Header.NavPathsDistinct | src/components/Header.tsx:15-23 | the seven paths are distinct |
| Header.AtMostOneActive | src/components/Header.tsx:43 | at most one item is active for any pathname |
| Header.MobileMenu.Toggle | src/components/Header.tsx:84 | the menu flag flips |
| Header.MobileMenu.FollowLink | src/components/Header.tsx:98 | following a menu link closes the menu |
| Text.IndexOf | src/pages/Admin.tsx:114 | the search helper behind `Text.Includes`, which models the `includes` calls there: -1 iff the pattern occurs nowhere, otherwise its first occurrence |
| Text.IncludesEmpty | src/pages/Admin.tsx:114-116 | every string includes the empty string |
| Text.ReplaceFirst | src/components/Header.tsx:25 | a string without the pattern is unchanged |
| Text.ReplaceFirstSplit | src/components/Header.tsx:25 | the first occurrence is replaced; what is before and after it is kept |
| Text.LowerChar | src/pages/Admin.tsx:114 | ASCII and Latin-1 capitals map to their lower case; every other character is kept |
| Text.ToLowerIdempotent | src/pages/Admin.tsx:114 | lower-casing twice changes nothing more |
| Text.Trim | src/pages/Checkout.tsx:43 | a slice of the input with only whitespace removed on each side; it has no whitespace at either end; it is empty iff the input is all whitespace |
| Text.TrimIdempotent | src/pages/Checkout.tsx:58-62 | trimming twice changes nothing more |

## Left out

- All Supabase I/O. Each backend call is a `Datastore` method. Its success or failure is an
  input: `available` for the replenishment insert, `InsertReply` and `itemsError` for
  checkout.
- The bodies of `get_shop_stock`, `get_stock_level`, `receive_replenishment`,
  `record_sale_movements`, `create_order_with_items` and `has_role` are not in this
  repository. The stock sum and the DRAFT→RECEIVED step are assumed contracts on
  `Datastore`. The others are not used by the modelled code.
- Ledger.Datastore.ReceiveReplenishment: receiving a replenishment that is not DRAFT is
  modelled as a no-op. What the backend really does there is not in this repository.
- The stock and movement reads of `fetchStock` keep the old rows when a read returns no
  data. The model treats these reads as succeeding and always replaces both lists.
- The inserts of replenishment items, the upserts, the movement inserts and the
  receive call ignore their errors in the source. The model treats them as succeeding.
- Ledger.NewestFirst: the movement lists are ordered by `created_at` descending. The
  model orders them as reverse log order. Rows with equal `created_at` are ordered by the
  database; for example, the RESTOCK movements of one receive call can share a timestamp.
  The model fixes such rows in reverse log order, so it does not capture which of them
  fall inside the `limit`.
- Async interleaving between awaited calls, React re-renders and effects. The
  `selectedShop` effect is folded into AdminStock.AdminStockTab.SelectShop.
- The `loading` flags of the stock consoles. Checkout models its own flag.
- `localStorage` and JSON persistence of the cart and the country. The saved country is an
  input, and the cart provider starts empty.
- The `Intl` timezone call. The timezone is an input, and a failed read is `None`.
- `generateRef`, which uses the clock and randomness. The order reference is an input.
- `formatFCFA` and `formatNGN` (`toLocaleString`). A formatted price is the `Money` value
  it shows.
- Pricing.GetRawPrice, Pricing.GetProductPrice, Pricing.GetKitPrice, Pricing.FormatKitPrice:
  the source looks keys up as JavaScript object properties, so a key that names an
  inherited property (`"toString"`, `"constructor"`, `"__proto__"`, ...) is a truthy
  lookup. The two price getters then return `undefined` and the two formatters throw.
  The model treats every key outside the tables as unknown: it gives 0 or "—". No caller in
  the storefront passes such a key.
- Text.ReplaceFirst: the `$&`, `` $` ``, `$'` and `$$` patterns of a `replace` replacement
  string are not expanded. The replacement is inserted literally. The header only passes
  "/fr" and "/en".
- Text.LowerChar: models ASCII and Latin-1 capitals only, not the rest of Unicode
  `toLowerCase`.
- `parseInt` on the input text. StockConsole.CoerceInput receives what `parseInt`
  returned, or `None` for NaN.
- Integers are unbounded. JavaScript numbers are doubles, and the amounts in these tables
  and carts stay far below 2^53.
- The float approximation `Math.round(total * 2.7)` of the cart page, `src/lib/kits.ts`,
  `use-admin`, the product label helper, and the presentation-only pages and components.
- The fetches of the admin order and profile lists: AdminOrders.AdminPage starts from
  lists already fetched.
- On these points the storefront's code behaves as follows:
  - `total_cost` is always sent as 0.
  - A zero-quantity movement is never rejected.
  - A replenishment is never cancelled.
  - Whether re-initialisation overwrites an existing reorder level is up to the backend,
    so `Datastore.upsertOverwrites` leaves it open.
- AdminStock.AdminStockTab.ClickMinusOne: the never-negative guarantee holds only when
  the row shows the current, non-negative stock. The source compares against the fetched
  row, which may be stale.
- OwnerStock.OwnerStockTab.LowStockBadge: counts exactly the Out and Low rows only when
  reorder levels are non-negative (StockConsole.OutRowNotCountedBelowZeroLevel shows why).
