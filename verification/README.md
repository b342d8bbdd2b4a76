# Market storefront commerce engine, modelled in Dafny

This project models the commerce core of an in-game market storefront. The
storefront runs inside a game host or standalone in a browser. The model
covers these parts:

- **Vanilla page** (`fivem-market/html/market-app.js`). One `MarketApp`
  object holds the state: whether the market is open, the market
  configuration, the balance (cash, bank, points, minimum withdraw), the cart
  lines `{itemId, quantity}`, the payment method, and the daily discounted
  item. Its methods change that state in place.
- **Minimal bridge page** (`fivem-market/html/script.js`). A `BridgeSession`
  holds the last market data, the last balance sent, and a cart of
  `{item, quantity}` entries.
- **React cart hook** (`src/hooks/useCart.ts`). Pure functions over the
  cart, plus its totals and the purchase request built from it.
- **React market hook** (`src/hooks/useMarket.ts`). A reducer over the host's
  messages, followed by the hook's settling effect. It also covers the
  standalone demo market, the affordability check, the purchase, the owner
  transfer and the category filter.
- **Sales ledger** (`src/hooks/useSalesData.ts`). Daily buckets of units sold
  per item. It covers recording a sale, the seven-day window, and the demo
  data generator.
- **Sales chart** (`src/components/market/SalesChart.tsx`). Per-item totals
  over the days, the five best sellers, one zero-filled row per day, and the
  legend and colour configuration.
- **Points panel** (`src/components/market/PointsPanel.tsx`). The
  withdraw-button guard, the preset amounts and the amount input.
- **Transfer panel** (`src/components/market/MarketTransferPanel.tsx`). The
  trimmed owner fields, the upper-cased `DEVRET` confirmation and the
  transfer call.

Shared notions each have their own module:

- `Base`: an `Option`.
- `Catalog`: items, categories and the market configuration.
- `Pricing`: the 5% daily discount and the 5% points.
- `Economy`: the balance, affordability and debiting.
- `HostBridge`: the host's reply, and whether a host is present.
- `ItemCounts`: a JavaScript object `{[itemId]: number}`, as an
  insertion-ordered list of keys.

Money and quantities are integers. `Math.floor(price * 0.95)` is
`price * 95 / 100`, and `Math.floor(total * 0.05)` is `total * 5 / 100`.
Dafny's division rounds down for a positive divisor, so both are floors for
every integer. Dates are whole day numbers counted from 1970-01-01 (UTC).
Clock readings are millisecond instants.

Three behaviours of the code that the model keeps:

- `addItem` in `useCart.ts` and `addToCart` in `script.js` accept any
  quantity. A zero or negative quantity is added as it is.
- `openMarket` in `script.js` keeps the cart from the previous market.
  `openMarket` in `market-app.js` empties it.
- The standalone purchase of `useMarket.ts` takes the price from cash or bank
  and credits no points. Only `market-app.js` credits 5% of the total as
  points.

## Model

| member | source | states |
|---|---|---|
| Catalog.FindItem | src/hooks/useMarket.ts:212 | None exactly when no item carries the id; otherwise the first item with that id |
| Catalog.FirstCategoryId | src/hooks/useMarket.ts:35 | the first category's id, or "" when there are no categories; a non-empty result always names a category of the market |
| Pricing.DiscountedPrice | fivem-market/html/market-app.js:148 | the floor of 95% of the price; never above the price, and strictly below it for a positive price |
| Pricing.EffectivePrice | fivem-market/html/market-app.js:206-209 | the discounted price exactly for the daily item, the list price otherwise; within 0..price |
| Pricing.PointsEarned | fivem-market/html/market-app.js:415 | the floor of 5% of the total (total / 20); within 0..total for a non-negative total |
| Economy.CanAfford | src/hooks/useMarket.ts:115-120 | true exactly when the chosen method's funds cover the amount |
| Economy.Debit | src/hooks/useMarket.ts:155-158 | the chosen method loses the amount; the other method, points and minimum stay the same |
| Economy.AffordableDebitKeepsNonNegative | src/hooks/useMarket.ts:149-158 | paying an affordable amount from a non-negative balance leaves it non-negative |
| Economy.Overlay | fivem-market/html/market-app.js:636-637 | each field sent with a number replaces the old one; each missing field keeps the old value |
| Economy.OverlayComplete | fivem-market/html/market-app.js:636-637 | a complete update replaces the whole balance |
| Economy.OverlayIdempotent | fivem-market/html/market-app.js:636-637 | applying the same update twice gives the same balance as applying it once |
| ItemCounts.KeyIndex | src/hooks/useSalesData.ts:69 | the position of the first entry with the key, or -1 exactly when the key is absent |
| ItemCounts.Get | src/hooks/useSalesData.ts:69 | the reading of `c[id]`, 0 when absent; ItemCounts.GetStored and GetPut state its readings |
| ItemCounts.Put | src/hooks/useSalesData.ts:69 | `c[id] = v`; ItemCounts.GetPut, PutKeys and SumPut state its effect |
| ItemCounts.GetPut | src/hooks/useSalesData.ts:69 | after `c[k] = v`, key k reads v and every other key reads as before |
| ItemCounts.PutKeys | src/hooks/useSalesData.ts:69 | storing a value keeps keys distinct and in place; a new key is appended at the end |
| ItemCounts.SumCountsAppend | src/hooks/useSalesData.ts:29-30 | appending an entry adds its value to the sum |
| ItemCounts.SumCountsUpdate | src/hooks/useSalesData.ts:69-70 | replacing an entry changes the sum by the difference |
| ItemCounts.SumPut | src/hooks/useSalesData.ts:69-70 | `c[k] = v` changes the sum by v minus the old reading |
| ItemCounts.GetStored | src/components/market/SalesChart.tsx:45 | with distinct keys, reading a stored key gives its stored value |
| ItemCounts.GetLast | src/components/market/SalesChart.tsx:27-28 | with distinct keys, a reading splits into the prefix's reading plus the last entry's value |
| VanillaCart.LineIndex | fivem-market/html/market-app.js:296 | the first line with the id, or -1 exactly when no line has it |
| VanillaCart.TotalItems | fivem-market/html/market-app.js:204 | the quantity sum; VanillaCart.TotalItemsAppend, TotalItemsUpdate and TotalItemsSplice state how each cart operation moves it |
| VanillaCart.TotalItemsAppend | fivem-market/html/market-app.js:204 | a new line adds its quantity to the unit count |
| VanillaCart.TotalItemsUpdate | fivem-market/html/market-app.js:204 | changing one line's quantity changes the unit count by the difference |
| VanillaCart.TotalItemsSplice | fivem-market/html/market-app.js:204 | removing one line removes exactly its units |
| VanillaCart.SetKeepsInvariants | fivem-market/html/market-app.js:311-321 | setting a line to a positive quantity keeps ids distinct and quantities positive |
| VanillaCart.Without | fivem-market/html/market-app.js:307 | filtering never lengthens the cart |
| VanillaCart.WithoutMembers | fivem-market/html/market-app.js:307 | the lines that remain are exactly the old lines with another id |
| VanillaCart.WithoutAbsent | fivem-market/html/market-app.js:307 | removing an id that is absent changes nothing |
| VanillaCart.WithoutSplices | fivem-market/html/market-app.js:307 | with distinct ids, removing an id cuts out exactly its one line |
| VanillaCart.SpliceKeepsInvariants | fivem-market/html/market-app.js:307 | cutting out a line keeps ids distinct and quantities positive |
| VanillaCart.WithoutKeepsInvariants | fivem-market/html/market-app.js:307 | removing an id keeps ids distinct and quantities positive |
| VanillaCart.WithoutIgnoresQuantity | fivem-market/html/market-app.js:317-318 | removing an id gives the same cart whatever quantity its line held |
| VanillaCart.LinePrice | fivem-market/html/market-app.js:205-211 | one line's price, 0 for an item the market does not list; VanillaCart.LinePriceBounds states that it lies between 0 and the undiscounted line price |
| VanillaCart.CartTotal | fivem-market/html/market-app.js:205-211 | the discounted total; VanillaCart.CartTotalBounds and CartTotalUndiscounted state its range and its value without a discount |
| VanillaCart.LinePriceBounds | fivem-market/html/market-app.js:205-211 | a line costs between 0 and its undiscounted cost; a line whose item is unknown costs 0 |
| VanillaCart.CartTotalBounds | fivem-market/html/market-app.js:205-211 | the cart total lies between 0 and the undiscounted total |
| VanillaCart.CartTotalUndiscounted | fivem-market/html/market-app.js:205-211 | without the daily item in the cart, the total is the undiscounted total |
| HostBridge.FailureText | fivem-market/html/market-app.js:425 | the notification text: the host's message when it is present and non-empty, the fallback otherwise; never empty when the fallback is not |
| VanillaMarket.ParsedAmount | fivem-market/html/market-app.js:457 | the typed amount, 0 when unreadable; VanillaMarket.MarketApp.HandleWithdraw states what each amount leads to |
| VanillaMarket.WithdrawRejected | fivem-market/html/market-app.js:458 | the withdraw guard; PointsPanel.CanWithdrawRange states it is the negation of the panel's rule |
| VanillaMarket.OwnerShown | fivem-market/html/market-app.js:489 | the shown owner: when there is one it is the name sent and is not empty; an empty or missing name shows no owner |
| VanillaMarket.MarketApp.PurchaseEnabled | fivem-market/html/market-app.js:226-230 | the purchase button's guard; VanillaMarket.MarketApp.HandlePurchase states that an enabled purchase keeps the balance non-negative |
| VanillaMarket.MarketApp.constructor | fivem-market/html/market-app.js:14-25 | closed, no market, empty cart, cash, balance 0/0/0 with a minimum withdraw of 500 |
| VanillaMarket.MarketApp.AddToCart | fivem-market/html/market-app.js:295-301 | an existing line gains one unit, otherwise a one-unit line is appended; the unit count grows by one; invariants kept |
| VanillaMarket.MarketApp.RemoveFromCart | fivem-market/html/market-app.js:306-308 | the cart loses exactly the item's line (nothing when absent); invariants kept |
| VanillaMarket.MarketApp.UpdateQuantity | fivem-market/html/market-app.js:311-321 | an absent item is ignored; a line falling to 0 or below is removed; otherwise it moves by delta; the unit count follows |
| VanillaMarket.MarketApp.ClearCart | fivem-market/html/market-app.js:323-325 | the cart is empty |
| VanillaMarket.MarketApp.SelectPayment | fivem-market/html/market-app.js:574-585 | the chosen method becomes the payment method; the cart invariant is kept |
| VanillaMarket.MarketApp.HandlePurchase | fivem-market/html/market-app.js:387-451 | an empty cart does nothing; standalone, the total is debited, 5% is credited as points and the cart emptied; hosted, the cart is emptied only on success and the balance waits for the host; an enabled purchase keeps the balance non-negative |
| VanillaMarket.MarketApp.HandleWithdraw | fivem-market/html/market-app.js:456-480 | an amount below the minimum or above the points is refused and changes nothing; standalone, points move to the bank with their sum kept; hosted, the balance waits for the host; the cart invariant is kept |
| VanillaMarket.MarketApp.OpenMarket | fivem-market/html/market-app.js:485-503 | open with the new configuration and balance, empty cart, cash, cleared search; the first category is selected and the drawn item is discounted |
| VanillaMarket.MarketApp.CloseMarket | fivem-market/html/market-app.js:524-526 | the market is closed; the cart invariant is kept |
| VanillaMarket.MarketApp.UpdateBalance | fivem-market/html/market-app.js:636-637 | the balance is the old one overlaid with the fields sent with a number; the cart invariant is kept |
| VanillaMarket.MarketApp.UpdateOwner | fivem-market/html/market-app.js:641-642 | the shown owner is the name sent; the cart invariant is kept |
| ReactCart.IndexOf | src/hooks/useCart.ts:10 | the first entry with the id, or -1 exactly when none has it |
| ReactCart.AddItem | src/hooks/useCart.ts:8-22 | `addItem`, the quantity defaulting to one; its contract is stated by ReactCart.AddItemSpec and ReactCart.AddItemTotals |
| ReactCart.AddItemSpec | src/hooks/useCart.ts:8-22 | ids stay unique; an existing entry keeps its place and the others are untouched; a new item is appended with the quantity; an existing entry's quantity grows by exactly the quantity added |
| ReactCart.AddItemTotals | src/hooks/useCart.ts:8-22 | the unit count grows by the quantity and the price total by price times quantity |
| ReactCart.RemoveItem | src/hooks/useCart.ts:25-27 | filtering never lengthens the cart |
| ReactCart.RemoveItemMembers | src/hooks/useCart.ts:25-27 | the entries that remain are exactly the old entries with another id |
| ReactCart.RemoveItemAbsent | src/hooks/useCart.ts:25-27 | removing an absent id changes nothing |
| ReactCart.RemoveItemSplices | src/hooks/useCart.ts:25-27 | with unique ids, removing an id cuts out exactly its entry |
| ReactCart.RemoveItemUnique | src/hooks/useCart.ts:25-27 | removing an id keeps the remaining ids unique |
| ReactCart.RemoveItemTotal | src/hooks/useCart.ts:25-27 | the unit count drops by exactly the removed entry's quantity, and not at all for an absent id |
| ReactCart.RemoveItemSpec | src/hooks/useCart.ts:25-27 | ids stay unique and the unit count drops by the removed entry's quantity |
| ReactCart.SetQuantity | src/hooks/useCart.ts:35-39 | same length; each entry with the id gets the quantity, every other entry is unchanged |
| ReactCart.UpdateQuantity | src/hooks/useCart.ts:29-40 | `updateQuantity`; ReactCart.UpdateQuantityNonPositive and ReactCart.UpdateQuantityPositive state its two cases |
| ReactCart.UpdateQuantityNonPositive | src/hooks/useCart.ts:29-33 | a quantity of 0 or less removes the item |
| ReactCart.UpdateQuantityPositive | src/hooks/useCart.ts:29-39 | a positive quantity sets that entry's quantity in place and leaves the rest unchanged; the unit count follows |
| ReactCart.ClearCart | src/hooks/useCart.ts:42-44 | the cart is empty |
| ReactCart.TotalPrice | src/hooks/useCart.ts:46-48 | the price-times-quantity sum; ReactCart.TotalsAppend, TotalsUpdate and AddItemTotals state how each cart operation moves it |
| ReactCart.TotalItems | src/hooks/useCart.ts:50-52 | the quantity sum; ReactCart.TotalsSplice, RemoveItemTotal and AddItemTotals state how each cart operation moves it |
| ReactCart.TotalsUpdate | src/hooks/useCart.ts:46-52 | replacing one entry changes both totals by the difference |
| ReactCart.TotalsAppend | src/hooks/useCart.ts:46-52 | appending an entry adds its units and its price times quantity |
| ReactCart.TotalsSplice | src/hooks/useCart.ts:50-52 | cutting out an entry removes exactly its units |
| ReactCart.RequestLines | src/hooks/useCart.ts:55-58 | one `{itemId, quantity}` line per entry, in cart order |
| ReactCart.GetCartData | src/hooks/useCart.ts:54-63 | the purchase request; ReactCart.GetCartDataSpec and RequestUnitsMatch state its lines, method and total |
| ReactCart.GetCartDataSpec | src/hooks/useCart.ts:54-63 | the request lists every entry's id and quantity, the method chosen and the cart's price total; its units equal the cart's |
| ReactCart.RequestUnitsMatch | src/hooks/useCart.ts:54-63 | the units requested equal the units in the cart |
| ReactMarket.MergeBalance | src/hooks/useMarket.ts:39-45 | cash, bank and points take the values sent; the minimum withdraw is always kept |
| ReactMarket.OnMessage | src/hooks/useMarket.ts:17-78 | the message handler; ReactMarket.OpenMarketSpec, UpdateBalanceSpec and UpdateOwnerSpec state each message's effect |
| ReactMarket.Settle | src/hooks/useMarket.ts:85-90 | the configuration effect; ReactMarket.SettleSettles states that one run reaches a fixed point |
| ReactMarket.Dispatch | src/hooks/useMarket.ts:17-90 | a message followed by the effect it triggers; ReactMarket.DispatchKeepsSettled states that it keeps the state settled |
| ReactMarket.SettleSettles | src/hooks/useMarket.ts:85-90 | after the effect, the shown owner is the configured one and a category is selected whenever one exists |
| ReactMarket.OpenMarketSpec | src/hooks/useMarket.ts:23-48 | non-array lists become empty, the first category is selected, the owner is shown, missing balance fields are kept, the market is open |
| ReactMarket.UpdateBalanceSpec | src/hooks/useMarket.ts:51-58 | only the balance changes: fields sent replace, missing fields are kept, the minimum stays |
| ReactMarket.UpdateOwnerSpec | src/hooks/useMarket.ts:62-69 | missing owner fields keep their old values; the shown owner settles on the configured name; nothing else changes |
| ReactMarket.DispatchKeepsSettled | src/hooks/useMarket.ts:22-90 | every host message leads from a settled state to a settled state |
| ReactMarket.OpenDemoMarket | src/hooks/useMarket.ts:93-99 | an unknown market id changes nothing; a known one opens its configuration with its first category selected |
| ReactMarket.HandlePurchase | src/hooks/useMarket.ts:129-163 | `handlePurchase`; ReactMarket.DemoPurchaseSpec states the standalone path, and the hosted path returns the host's verdict with the state unchanged |
| ReactMarket.DemoPurchaseSpec | src/hooks/useMarket.ts:129-163 | standalone, the purchase succeeds exactly when affordable; only the chosen method is debited, by the total; no points are credited |
| ReactMarket.CloseMarket | src/hooks/useMarket.ts:103-112 | only `isOpen` changes, to false, with the same effect as the `closeMarket` message |
| ReactMarket.TransferMarket | src/hooks/useMarket.ts:168-183 | standalone, the owner id and name become the new ones and nothing else changes; hosted, nothing changes here |
| ReactMarket.FilteredItems | src/hooks/useMarket.ts:212 | filtering never lengthens the list |
| ReactMarket.FilteredItemsMembers | src/hooks/useMarket.ts:212 | exactly the items of the selected category remain |
| ReactMarket.FilteredItemsAppend | src/hooks/useMarket.ts:212 | filtering keeps the order: filtering a concatenation concatenates the filtered parts |
| BridgeScript.BridgeSession.constructor | fivem-market/html/script.js:9-11 | no market, balance 0/0/0, empty cart |
| BridgeScript.BridgeSession.OpenMarket | fivem-market/html/script.js:18-21 | the market data and its balance are stored, the page is shown, and the cart is kept |
| BridgeScript.BridgeSession.UpdateBalance | fivem-market/html/script.js:24-26 | the balance is replaced whole by the one sent; the cart invariant is kept |
| BridgeScript.BridgeSession.UpdateOwner | fivem-market/html/script.js:29-35 | with market data present, the owner id and name become the ones sent (even missing ones); otherwise nothing changes; the cart invariant is kept |
| BridgeScript.BridgeSession.HideMarket | fivem-market/html/script.js:119-122 | the page is hidden and the cart emptied |
| BridgeScript.BridgeSession.CloseMarket | fivem-market/html/script.js:73-76 | closing hides the page and always empties the cart, as `hideMarket` does |
| BridgeScript.BridgeSession.AddToCart | fivem-market/html/script.js:139-151 | an unknown item or no market leaves the cart unchanged; otherwise the item is added as addItem does and the unit count grows by the quantity; the quantity defaults to one |
| BridgeScript.BridgeSession.RemoveFromCart | fivem-market/html/script.js:156-158 | the cart is filtered by id |
| BridgeScript.BridgeSession.UpdateCartQuantity | fivem-market/html/script.js:161-169 | an absent item is ignored; 0 or less removes the entry; otherwise the quantity is set in place |
| BridgeScript.BridgeSession.CartTotal | fivem-market/html/script.js:173-175 | `getCartTotal`, the cart's price total; ReactCart.AddItemTotals states how adding moves it |
| BridgeScript.BridgeSession.PurchaseItems | fivem-market/html/script.js:81-98 | an empty cart sends nothing; otherwise the cart's lines are sent and the cart is emptied only on success |
| SalesLedger.DayIndex | src/hooks/useSalesData.ts:63 | the first bucket of the date, or -1 exactly when there is none |
| SalesLedger.RecordSale | src/hooks/useSalesData.ts:59-84 | `recordSale`; SalesLedger.RecordSaleExisting, RecordSaleOtherItems, RecordSaleNew and RecordSaleKeepsWellFormed state it |
| SalesLedger.AddSale | src/hooks/useSalesData.ts:66-71 | the updated copy of a bucket; SalesLedger.UpdatedBucketConsistent and RecordSaleExisting state it |
| SalesLedger.RecordSaleExisting | src/hooks/useSalesData.ts:65-72 | with today's bucket present, only it changes: the item's count and the day's total grow by the quantity |
| SalesLedger.RecordSaleOtherItems | src/hooks/useSalesData.ts:67-69 | recording one item leaves every other item's count that day unchanged |
| SalesLedger.RecordSaleNew | src/hooks/useSalesData.ts:75-82 | without today's bucket, one bucket `{today, {item: q}, q}` is appended |
| SalesLedger.ReplaceBucketKeepsWellFormed | src/hooks/useSalesData.ts:66-71 | replacing a bucket by a consistent one with the same date keeps the ledger well formed |
| SalesLedger.AppendBucketKeepsWellFormed | src/hooks/useSalesData.ts:75-82 | appending a consistent bucket with a new date keeps the ledger well formed |
| SalesLedger.UpdatedBucketConsistent | src/hooks/useSalesData.ts:65-72 | adding a sale to a bucket keeps its item keys distinct and its total equal to the item sum |
| SalesLedger.ExistingBucketWellFormed | src/hooks/useSalesData.ts:65-72 | recording into today's bucket keeps the ledger well formed, its size and every date |
| SalesLedger.NewBucketWellFormed | src/hooks/useSalesData.ts:75-82 | appending today's bucket keeps the ledger well formed and leaves every old bucket unchanged |
| SalesLedger.RecordSaleKeepsWellFormed | src/hooks/useSalesData.ts:59-84 | recording keeps one bucket per date with totals equal to the item sums; it never drops a bucket or moves a date |
| SalesLedger.InLastWeek | src/hooks/useSalesData.ts:88-92 | the filter's test; SalesLedger.LastWeekDays states which whole days it admits |
| SalesLedger.LastWeekSales | src/hooks/useSalesData.ts:87-93 | filtering never lengthens the ledger |
| SalesLedger.LastWeekSalesMembers | src/hooks/useSalesData.ts:92 | exactly the buckets dated no earlier than seven days before now remain |
| SalesLedger.LastWeekSalesSnoc | src/hooks/useSalesData.ts:92 | a bucket added at the end appears at the end of the window exactly when it is recent |
| SalesLedger.LastWeekSalesAppend | src/hooks/useSalesData.ts:92 | the window keeps ledger order |
| SalesLedger.DayOf | src/hooks/useSalesData.ts:60 | the UTC day of an instant; SalesLedger.LastWeekDays states the window in these days |
| SalesLedger.LastWeekDays | src/hooks/useSalesData.ts:88-92 | the window reaches back 7 whole days at exact midnight and 6 otherwise |
| SalesLedger.DemoDay | src/hooks/useSalesData.ts:27-31 | for distinct item ids, one day holds exactly those items, in order, with their drawn quantities; keys are distinct and the total is their sum |
| SalesLedger.GenerateDemoSalesData | src/hooks/useSalesData.ts:5-37 | seven consecutive days ending today; each day holds exactly the six demo items, in order, with their drawn quantities; each total is the sum; the ledger is well formed |
| SalesChart.ColorsDistinct | src/components/market/SalesChart.tsx:65-71 | the five series colours are pairwise distinct |
| SalesChart.Weekday | src/components/market/SalesChart.tsx:188-192 | a weekday in 0..6, with Sunday (0) falling on day numbers congruent to 3 mod 7 |
| SalesChart.WeekdayCycle | src/components/market/SalesChart.tsx:188-192 | the next day is the next weekday, and a week later is the same weekday |
| SalesChart.DayLabelAsWritten | src/components/market/SalesChart.tsx:188-192 | `formatDate` as written, the local weekday of the date's UTC midnight; SalesChart.DayLabelEastOfUtc and DayLabelWestOfUtc state when it is right and when it is a day early |
| SalesChart.DayLabelEastOfUtc | src/components/market/SalesChart.tsx:188-192 | at a UTC offset of 0 up to 24 hours east, the label as written is the date's own weekday |
| SalesChart.DayLabelBehindUtc | src/components/market/SalesChart.tsx:188-192 | for every date, at any offset from one minute to 24 hours west of UTC, the label as written is the previous day's |
| SalesChart.DayLabelWestOfUtc | src/components/market/SalesChart.tsx:188-192 | one instance: 1970-01-01 is labelled "Çar" and not "Per" at UTC-3 |
| SalesChart.DayLabel | src/components/market/SalesChart.tsx:188-192 | the intended label, the date's own weekday; SalesChart.DayLabelEastOfUtc ties it to the written label |
| SalesChart.AddCounts | src/components/market/SalesChart.tsx:27-28 | one day folded into the running totals; SalesChart.AddCountsGet and AddCountsKeys state it |
| SalesChart.AddCountsGet | src/components/market/SalesChart.tsx:27-28 | folding one day in adds, for each id, the day's occurrences to its running total |
| SalesChart.AddCountsKeys | src/components/market/SalesChart.tsx:27-28 | folding a day in keeps the totals' keys distinct |
| SalesChart.OccurrencesDistinct | src/components/market/SalesChart.tsx:27 | for a day with distinct keys, an id's occurrences are its reading |
| SalesChart.TotalsOf | src/components/market/SalesChart.tsx:25-30 | the per-item totals over all days; SalesChart.TotalsOfSpec states each one |
| SalesChart.DaySum | src/components/market/SalesChart.tsx:161 | the summary tile's `reduce` over the days; SalesChart.TotalsOfSpec states that it equals the item's total in the chart |
| SalesChart.TotalsOfSpec | src/components/market/SalesChart.tsx:25-30 | each item's total is the sum of its counts over the days, and the totals have distinct keys |
| SalesChart.TotalsOfSpecAll | src/components/market/SalesChart.tsx:25-30 | the totals have distinct keys and every item's total is the sum over the days |
| SalesChart.AddDay | src/components/market/SalesChart.tsx:27-29 | the inner loop adds one day's counts to the running totals |
| SalesChart.ItemTotals | src/components/market/SalesChart.tsx:25-30 | the nested loops compute exactly the per-item totals |
| SalesChart.InsertMultiset | src/components/market/SalesChart.tsx:34 | inserting adds exactly the one entry |
| SalesChart.InsertSorted | src/components/market/SalesChart.tsx:34 | inserting into a list with descending totals keeps it descending |
| SalesChart.InsertSpec | src/components/market/SalesChart.tsx:34 | inserting keeps the order descending and adds exactly the one entry |
| SalesChart.SortByTotal | src/components/market/SalesChart.tsx:34 | the sort by descending total; SalesChart.SortSorted and SortMultiset state order and permutation |
| SalesChart.SortSorted | src/components/market/SalesChart.tsx:34 | the sort leaves the totals in non-increasing order |
| SalesChart.SortMultiset | src/components/market/SalesChart.tsx:34 | the sort keeps exactly the same entries, each as often |
| SalesChart.SortSpec | src/components/market/SalesChart.tsx:34 | the sort orders by descending total and is a permutation |
| SalesChart.InsertKeys | src/components/market/SalesChart.tsx:34 | inserting an entry with a new id keeps ids distinct |
| SalesChart.InsertMembers | src/components/market/SalesChart.tsx:34 | the entries after an insertion are the old ones and the new one |
| SalesChart.SortKeys | src/components/market/SalesChart.tsx:34 | sorting keeps ids distinct and keeps exactly the same entries |
| SalesChart.Ids | src/components/market/SalesChart.tsx:36 | one id per entry, in order |
| SalesChart.TopItems | src/components/market/SalesChart.tsx:33-37 | the ids of the five best sellers; SalesChart.TopItemsSpec and LeftOutBelowTop state them |
| SalesChart.TopEntriesPrefix | src/components/market/SalesChart.tsx:33-36 | the top entries are the first min(5, n) of the sorted totals |
| SalesChart.TopItemsSpec | src/components/market/SalesChart.tsx:33-36 | at most five ids, in descending order of total, all taken from the totals, and none below an item left out |
| SalesChart.LeftOutBelowTop | src/components/market/SalesChart.tsx:33-36 | an item left out never sold more than any chosen one |
| SalesChart.TopItemsDistinct | src/components/market/SalesChart.tsx:33-36 | the chosen ids are distinct |
| SalesChart.ZeroFilled | src/components/market/SalesChart.tsx:44-46 | each chosen id with its units that day or 0; SalesChart.ZeroFilledGet and ZeroFilledIds state it |
| SalesChart.ZeroFilledGet | src/components/market/SalesChart.tsx:44-46 | a row reads the day's count for a chosen id, and 0 for every other id |
| SalesChart.ZeroFilledIds | src/components/market/SalesChart.tsx:44-46 | a row has one entry per chosen id, in the chosen order |
| SalesChart.RowValues | src/components/market/SalesChart.tsx:44-46 | the loop builds the zero-filled row: the day's count for each chosen id, 0 where absent |
| SalesChart.DayRows | src/components/market/SalesChart.tsx:39-48 | one row per day, in order, with the weekday label, the date and the counts of the chosen ids zero-filled |
| SalesChart.ChartData | src/components/market/SalesChart.tsx:23-49 | one row per day, in order, with the weekday label, the date and the zero-filled counts of the five best sellers |
| SalesChart.NameOf | src/hooks/useSalesData.ts:43-56 | a name is found exactly when some entry has the id, and it is that entry's name |
| SalesChart.LabelOf | src/components/market/SalesChart.tsx:76 | the item's name when it is non-empty, otherwise the id; never empty for a non-empty id |
| SalesChart.BuildChartConfig | src/components/market/SalesChart.tsx:52-80 | at most five entries, one per best seller, each with its label and the colour of its rank |
| PointsPanel.CanWithdraw | src/components/market/PointsPanel.tsx:23 | `canWithdraw`; PointsPanel.CanWithdrawRange ties it to the vanilla withdraw check |
| PointsPanel.CanWithdrawRange | src/components/market/PointsPanel.tsx:23 | the button is enabled exactly when the minimum ≤ amount ≤ points, the same range market-app.js accepts |
| PointsPanel.HandleWithdraw | src/components/market/PointsPanel.tsx:25-29 | the amount is passed on exactly when the button is enabled |
| PointsPanel.HandleWithdrawAccepted | src/components/market/PointsPanel.tsx:25-29 | every amount the panel passes on is one the withdraw handler accepts |
| PointsPanel.AtMost | src/components/market/PointsPanel.tsx:31 | filtering never lengthens the list |
| PointsPanel.AtMostMembers | src/components/market/PointsPanel.tsx:31 | exactly the presets within the points remain |
| PointsPanel.AtMostPrefix | src/components/market/PointsPanel.tsx:31 | on an ascending list the result is a prefix, and the next element exceeds the points |
| PointsPanel.PresetAmounts | src/components/market/PointsPanel.tsx:31 | the affordable presets; PointsPanel.PresetAmountsSpec states them |
| PointsPanel.PresetAmountsSpec | src/components/market/PointsPanel.tsx:31 | the presets offered are exactly those within the points, a prefix of 100, 250, 500, 1000 |
| PointsPanel.ClampedInput | src/components/market/PointsPanel.tsx:137 | the typed amount is never negative; an unreadable or negative input reads 0 |
| PointsPanel.NextAmount | src/components/market/PointsPanel.tsx:105-137 | the amount after a preset, "Tümü" or typed input; PointsPanel.AmountActionsSpec states which of them enable the button |
| PointsPanel.AmountActionsSpec | src/components/market/PointsPanel.tsx:21-23 | the initial amount and "Tümü" are withdrawable exactly when points reach the minimum; a preset is withdrawable exactly when it reaches the minimum |
| TransferPanel.LeadingSpaces | src/components/market/MarketTransferPanel.tsx:26 | counts the white space the input starts with: all of it is white space and the character after it is not |
| TransferPanel.TrailingStart | src/components/market/MarketTransferPanel.tsx:26 | finds where the trailing white space begins: everything after it is white space and the character before it is not |
| TransferPanel.Trim | src/components/market/MarketTransferPanel.tsx:26 | `String.prototype.trim`; TransferPanel.TrimSpec, TrimEnds and TrimEmpty state it |
| TransferPanel.TrimSpec | src/components/market/MarketTransferPanel.tsx:26 | trim gives a slice of the input with only white space cut from both ends and none left at either end |
| TransferPanel.TrimEnds | src/components/market/MarketTransferPanel.tsx:26 | a trimmed string is empty or starts and ends with a non-space character |
| TransferPanel.TrimIdempotent | src/components/market/MarketTransferPanel.tsx:26 | trimming twice is trimming once |
| TransferPanel.TrimEmpty | src/components/market/MarketTransferPanel.tsx:26 | trim is empty exactly when the input is all white space |
| TransferPanel.CanTransfer | src/components/market/MarketTransferPanel.tsx:26 | `canTransfer`; TransferPanel.CanTransferSpec states it in terms of the untrimmed fields |
| TransferPanel.CanTransferSpec | src/components/market/MarketTransferPanel.tsx:26 | the transfer is allowed exactly when both fields hold a non-space character and the confirmation is DEVRET |
| TransferPanel.HandleTransfer | src/components/market/MarketTransferPanel.tsx:28-35 | the transfer is called exactly when allowed, with non-empty arguments; otherwise the form is untouched |
| TransferPanel.HandleTransferSpec | src/components/market/MarketTransferPanel.tsx:28-35 | after a transfer the form is reset and cannot transfer again; the arguments are the trimmed fields |
| TransferPanel.Upper | src/components/market/MarketTransferPanel.tsx:124 | same length, each character upper-cased |
| TransferPanel.SetConfirmText | src/components/market/MarketTransferPanel.tsx:124 | only the confirmation changes, and it keeps the typed length |
| TransferPanel.ConfirmAnyCase | src/components/market/MarketTransferPanel.tsx:124 | DEVRET is confirmed exactly when typed in any mix of cases |
| TransferPanel.ConfirmLowerCase | src/components/market/MarketTransferPanel.tsx:124 | typing "devret" in lower case confirms the transfer |

## Left out

- Rendering, notifications, toasts, modals, `setTimeout` delays and the DOM are not modelled. The model keeps only the state those read.
- The host's replies to fetch calls are parameters (`Host`, `HostReply`). Whether the host is present is a parameter too. The network and NUI plumbing are not modelled.
- `Math.random()` is a parameter: the discounted item's index in `openMarket` and the demo quantities (each in 5..54). The clock is a parameter too: `today` and `now`.
- Floating-point arithmetic is modelled as integer floors. Fractional prices and balances are not modelled.
- Time zones and daylight saving time are not modelled. `lastWeekSales` compares UTC instants against the bucket's midnight. The chart's weekday is modelled as the UTC weekday; the local-time reading is the finding below.
- The `openMarket` message of `market-app.js` is assumed to carry a complete configuration and balance.
- Economy.Overlay: a field the message carries as `null` is read as missing. In `market-app.js:637` the spread would store `null`; balances here are numbers and have no null.
- VanillaMarket.MarketApp.UpdateBalance: like `Economy.Overlay`, an explicit `null` field keeps the old value instead of overwriting it.
- VanillaMarket.MarketApp.AddToCart: requires an open market (`config` present). The page only offers the button once a market is rendered.
- TransferPanel.Upper: upper-cases ASCII letters only. Other scripts' case mappings, such as Turkish dotted and dotless i, are not modelled.
- ItemCounts: keys keep insertion order. JavaScript lists integer-like keys first, in numeric order; that is not modelled.
- SalesChart.ChartData: an item whose id is "date" or "fullDate" would overwrite those row fields in the source. The model keeps the label, the date and the values apart.
- SalesChart.NameOf: looks names up in a list. Object-prototype keys such as "constructor" are not modelled.
- SalesChart.SortSpec: proves descending order and permutation, not that ties keep their original order. The model's insertion sort is stable, like `Array.prototype.sort`.
- SalesChart.ItemTotals: its `ensures` ties the loop to `TotalsOf`. The per-item sums are stated by `SalesChart.TotalsOfSpecAll`.
- The rendering of the summary tiles (`SalesChart.tsx:157-177`) is not modelled. Their sums are `SalesChart.DaySum`.
- `transferMarket` in `script.js` (103-109) only forwards the request to the host and changes no state, so it is not modelled. The host notifications sent by both `closeMarket` functions are not modelled either; their state effects are `BridgeScript.BridgeSession.CloseMarket` and `ReactMarket.CloseMarket`.
- The search filter of `market-app.js` `renderProducts` is not modelled. It matches names after case folding, which the model does not have.
- The market selector, `PaymentSelector`, `MarketUI`, the build configuration and the static demo catalogue are not part of this model.
- ReactMarket.HandlePurchase: the hosted path is the host's reply and nothing else. Clearing the cart afterwards belongs to the caller (`ReactCart.ClearCart`).

## Findings

| source | as written | input that shows it | evidently intended | confidence | as-written member | corrected member |
|---|---|---|---|---|---|---|
| src/components/market/SalesChart.tsx:188-192 | `new Date("YYYY-MM-DD")` reads the date as UTC midnight, but `getDay()` returns the local weekday | the date 1970-01-01 (a Thursday, "Per") viewed at UTC-3 is labelled "Çar" (Wednesday) | the weekday of the calendar date itself | not executed | SalesChart.DayLabelWestOfUtc | SalesChart.DayLabelEastOfUtc |
