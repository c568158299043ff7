# Point-of-sale order model

A Dafny model of the order logic of a small restaurant point-of-sale web
application. Four screens hold the logic:

- The storefront home page (`app/page.tsx`) has a product grid narrowed by a search box and a category selector. Its "everything" value is `'All'`. It also has a cart, which add, remove and plus/minus buttons change. A quantity change applies only when the new quantity stays positive.
- The point-of-sale page (`app/pos/page.tsx`) builds an order with plus and minus buttons. It derives a subtotal, a 10% service charge and a total. Checkout writes one record to the store.
- The menu management page (`app/menu/page.tsx`) narrows the menu by search and category. Its "everything" value is `'ALL'`.
- The payment history page (`app/payment/page.tsx`) narrows the stored orders by a query and a status. The query is matched against the id or the payment method. The page shows revenue, transaction count and an average guarded against division by zero.

Modules:

- `Lists` (lists.dfy) holds the array operations the pages use: `filter`, `map`, `find` and a summing `reduce`. Each is a function (`Filter`, `Map`, `Find`, `Sum`). `filter`, `map` and `find` also have a loop (`RunFilter`, `RunMap`, `RunFind`) proved to compute its function.
- `Text` (text.dfy) holds ASCII `toLowerCase` and `includes`.
- `OrderLines` (order_lines.dfy) holds what cart and order share: items, lines, the add operation, the subtotal, and the invariant. The invariant says ids are unique and every quantity is at least 1.
- `Catalog` (catalog.dfy) holds the search-and-category filter. The "everything" value is a parameter.
- The page modules are `Storefront`, `PointOfSale`, `MenuManagement` and `PaymentHistory`.

Each page's state lives in a class: `Storefront.Cart` and `PointOfSale.Order`. Their methods run the loops and state the new state through the specification functions. "Reachable" means reachable from the empty state by any sequence of button actions (`Replay`). For such states, the invariant is proved. For the point-of-sale page it is also proved that the minus button's trailing `filter(quantity > 0)` never removes a line.

Money is exact `real`. The store's answer to the checkout insert is a parameter (`StoreReply`).

Two points of the code are easily misread. The model follows the code as written:

- Both pages clamp a quantity at 1. Neither page removes a line when its quantity reaches zero. On the point-of-sale page the `filter(item => item.quantity > 0)` at app/pos/page.tsx:80 only looks like a "remove at zero" policy. It can never fire, because line 77 decrements only when the quantity is above 1. `PointOfSale.MinusNeverRemoves` proves this.
- The two catalog filters use different "everything" values: `'All'` on the storefront and `'ALL'` on the menu page. Each page module uses its own value.

## Model

| member | source | states |
|---|---|---|
| Lists.Filter | app/page.tsx:84 | `filter` keeps exactly the elements the callback accepts, each as often as in the input, as an order-preserving subsequence |
| Lists.RunFilter | app/pos/page.tsx:80 | the element-by-element loop of `filter` computes `Filter` |
| Lists.Map | app/pos/page.tsx:68-70 | `map` gives one result per element, in place: as many results as elements, the i-th being the callback applied to the i-th element |
| Lists.RunMap | app/pos/page.tsx:68-70 | the element-by-element loop of `map` computes `Map` |
| Lists.Find | app/page.tsx:70 | `find` returns the first element passing the test, or nothing exactly when no element passes |
| Lists.RunFind | app/page.tsx:70 | the element-by-element loop of `find` computes `Find` |
| Lists.Sum | app/page.tsx:97 | a summing `reduce` from 0; terms that are never negative give a total that is never negative |
| Text.Lower | app/page.tsx:63 | `toLowerCase` keeps the length and lowercases each character (ASCII letters only) |
| Text.Includes | app/page.tsx:63 | `includes`: the empty query occurs in every text, a text contains itself, and a query longer than the text never occurs |
| OrderLines.WithItem | app/page.tsx:68-77 | after an add the item has a line; the order grows by one line exactly when the item had none, and the earlier lines keep their items |
| OrderLines.Incremented | app/pos/page.tsx:66-72 | `incrementQuantity` keeps every line's item and place, and adds one unit exactly to the lines for the id |
| OrderLines.Subtotal | app/pos/page.tsx:84-87 | the sum of price times quantity over the lines is never negative when no price or quantity is |
| OrderLines.AddLine | app/page.tsx:69-77 | the find-then-map-or-append handler computes `WithItem` |
| OrderLines.AddExisting | app/page.tsx:70-74 | adding an item whose id has a line raises that line by 1; the length and every other line are unchanged |
| OrderLines.AddNew | app/page.tsx:76 | adding an item with no line appends one line of quantity 1 after the unchanged earlier lines |
| OrderLines.AddTwice | app/pos/page.tsx:52-64 | adding the same new item twice yields one line of quantity 2 |
| OrderLines.AddKeepsWellFormed | app/page.tsx:68-77 | adding keeps ids unique and quantities at least 1, and the item then has a line |
| OrderLines.IncrementAbsent | app/pos/page.tsx:66-72 | incrementing an id with no line leaves the order unchanged |
| OrderLines.IncrementLine | app/pos/page.tsx:69 | incrementing the id of line k raises only that line by 1 |
| OrderLines.FilterKeepsWellFormed | app/page.tsx:84 | any filter of a well-formed order is well formed |
| OrderLines.SubtotalAppend | app/page.tsx:97 | a new line adds price times quantity to the total |
| OrderLines.SubtotalIncremented | app/pos/page.tsx:84-87 | bumping line k adds exactly its unit price to the subtotal |
| OrderLines.SubtotalAfterAdd | app/page.tsx:97 | after an add, the total grows by the existing line's unit price or by the new item's price |
| OrderLines.EmptyIffNoUnits | app/pos/page.tsx:92 | with positive quantities, an order with no line is exactly an order with no unit |
| Catalog.FilterItems | app/page.tsx:62-66 | a product is kept iff its lowercased name contains the lowercased query and the selector is on "everything" or names its category; kept in catalog order, every copy of a kept item as often as in the catalog |
| Catalog.ShowsEverything | app/page.tsx:63-64 | an empty query with the "everything" selector keeps every item |
| Catalog.OnlySelectedCategory | app/page.tsx:64 | with a concrete category selected, every kept item has that category |
| Catalog.CaseInsensitive | app/page.tsx:63 | queries that lowercase alike keep the same items |
| Catalog.Idempotent | app/page.tsx:62-66 | filtering the result again with the same inputs returns it unchanged |
| Storefront.FilterProducts | app/page.tsx:62-66 | `filteredProducts` keeps a product iff its name matches the query case-insensitively and the category is `'All'` or equal; the result is a subsequence of the catalog keeping every copy of a matching product |
| Storefront.InitialViewShowsAllProducts | app/page.tsx:39-40 | the initial empty query with `'All'` shows every product |
| Storefront.Without | app/page.tsx:83-85 | `removeFromCart` keeps exactly the lines of other products, in their order, and none for the id |
| Storefront.Adjusted | app/page.tsx:87-95 | `updateQuantity` keeps every line's item and place; the line for the id takes quantity+delta when that is positive, and every other quantity is unchanged |
| Storefront.RemoveAbsent | app/page.tsx:83-85 | removing an id not in the cart leaves it unchanged |
| Storefront.RemoveLine | app/page.tsx:84 | removing the id of line k removes exactly that line and keeps the rest in order |
| Storefront.RemoveKeepsWellFormed | app/page.tsx:84 | removal keeps the invariant, and no line for the id remains |
| Storefront.AdjustAbsent | app/page.tsx:87-95 | changing the quantity of an id not in the cart leaves it unchanged |
| Storefront.AdjustLine | app/page.tsx:88-94 | `updateQuantity` sets quantity+delta on the matching line only when that is positive and leaves the line unchanged otherwise; other lines are untouched |
| Storefront.MinusAtOneIsNoop | app/page.tsx:90-91 | the -1 button on a line at quantity 1 leaves the cart unchanged |
| Storefront.AdjustKeepsWellFormed | app/page.tsx:87-95 | quantity changes keep ids unique and quantities at least 1 |
| Storefront.EveryCartWellFormed | app/page.tsx:68-95 | every cart reachable by add, remove and quantity changes has unique ids and quantities at least 1 |
| Storefront.SampleCart | app/page.tsx:17-33 | wings, wings, salad from the page's catalog give lines wings×2 and salad×1 with total 34.97 |
| Storefront.Cart.constructor | app/page.tsx:38 | the cart starts empty and well formed |
| Storefront.Cart.AddToCart | app/page.tsx:68-77 | `addToCart` replaces the cart by `WithItem` of the old cart and keeps the invariant |
| Storefront.Cart.RemoveFromCart | app/page.tsx:83-85 | `removeFromCart` replaces the cart by the old cart without the id's lines |
| Storefront.Cart.UpdateQuantity | app/page.tsx:87-95 | `updateQuantity` replaces the cart by the clamped adjustment of the old cart |
| Storefront.Cart.TotalAmount | app/page.tsx:97 | `totalAmount` is the subtotal of the cart's lines, never negative when no price is |
| Storefront.Cart.PaymentDisabled | app/page.tsx:162 | the payment button is disabled exactly when the cart holds no unit |
| MenuManagement.FilterMenu | app/menu/page.tsx:47-51 | `filteredItems` keeps an item iff its name matches the query case-insensitively and the category is `'ALL'` or equal; the result is a subsequence of the items keeping every copy of a matching item |
| MenuManagement.InitialViewShowsWholeMenu | app/menu/page.tsx:43-44 | the empty query with `'ALL'` returns every item |
| MenuManagement.CategoryNarrows | app/menu/page.tsx:49 | with a category other than `'ALL'`, every returned item has exactly that category |
| MenuManagement.QueryCaseIgnored | app/menu/page.tsx:48 | the result does not depend on the letter case of the query |
| MenuManagement.FilterMenuIdempotent | app/menu/page.tsx:47-51 | filtering the result again with the same inputs returns it unchanged |
| PointOfSale.Decremented | app/pos/page.tsx:74-82 | after `decrementQuantity` every line holds a unit and is a line of the map step, in its order |
| PointOfSale.ServiceCharge | app/pos/page.tsx:88 | the service charge is a tenth of the subtotal, between 0 and the subtotal when the subtotal is not negative |
| PointOfSale.AfterCheckout | app/pos/page.tsx:91-109 | checkout leaves the order either cleared or unchanged, and cleared exactly when it was empty or the insert succeeded |
| PointOfSale.Total | app/pos/page.tsx:88-89 | total = subtotal × 11/10; what it adds to the subtotal is subtotal/10 |
| PointOfSale.CheckoutRecord | app/pos/page.tsx:100-106 | the written record carries total_amount = total, status 'completed', payment method 'cash' |
| PointOfSale.DecrementLine | app/pos/page.tsx:74-82 | `decrementQuantity` lowers line k by 1 only when above 1; at 1 it stays at 1 and is not removed; nothing else changes |
| PointOfSale.DecrementFilterDropsNothing | app/pos/page.tsx:77-80 | when all quantities are at least 1, the trailing filter returns the mapped order unchanged |
| PointOfSale.DecrementAbsent | app/pos/page.tsx:74-82 | decrementing an id not in the order leaves it unchanged |
| PointOfSale.DecrementKeepsWellFormed | app/pos/page.tsx:74-82 | decrementing keeps the invariant |
| PointOfSale.IncrementKeepsWellFormed | app/pos/page.tsx:66-72 | incrementing keeps the invariant |
| PointOfSale.EveryOrderWellFormed | app/pos/page.tsx:50-114 | every order reachable by add, plus, minus and checkout has unique ids and quantities at least 1 |
| PointOfSale.MinusNeverRemoves | app/pos/page.tsx:80 | in every reachable order the filter after the minus step removes nothing |
| PointOfSale.ServiceChargeExample | app/pos/page.tsx:88-89 | subtotal 100 gives service charge 10 and total 110 |
| PointOfSale.Order.constructor | app/pos/page.tsx:50 | the order starts empty and well formed |
| PointOfSale.Order.AddToOrder | app/pos/page.tsx:52-64 | `addToOrder` replaces the order by `WithItem` of the old order and keeps the invariant |
| PointOfSale.Order.IncrementQuantity | app/pos/page.tsx:66-72 | `incrementQuantity` replaces the order by the incremented old order |
| PointOfSale.Order.DecrementQuantity | app/pos/page.tsx:74-82 | `decrementQuantity` replaces the order by map-then-filter of the old order and never changes its length |
| PointOfSale.Order.HandleCheckout | app/pos/page.tsx:91-115 | an empty order is refused with no record written and no change; otherwise the record is written; an accepted insert clears the order and a failed one leaves it exactly as it was |
| PaymentHistory.FilterPayments | app/payment/page.tsx:45-50 | a payment is kept iff the lowercased query is in its lowercased id or method and the status is `'ALL'` or equal; the result is an order-preserving subsequence keeping every copy of a matching payment |
| PaymentHistory.InitialViewShowsAllPayments | app/payment/page.tsx:21-22 | the empty query with `'ALL'` keeps every payment |
| PaymentHistory.StatusNarrows | app/payment/page.tsx:48 | with a concrete status, every kept payment has that status |
| PaymentHistory.RevenueOfFiltered | app/payment/page.tsx:52 | revenue over the filtered list equals the sum of amounts of the matching payments, so 0 when none match |
| PaymentHistory.Divisor | app/payment/page.tsx:113 | `length \|\| 1` equals the length when the length is positive and is exactly 1 when it is 0 |
| PaymentHistory.Revenue | app/payment/page.tsx:52 | `totalAmount` adds the amounts of the shown payments; never negative when no amount is |
| PaymentHistory.Average | app/payment/page.tsx:113 | the average times the guarded divisor is the revenue: times a nonzero count it gives back the revenue, and with no transaction it is the revenue itself |
| PaymentHistory.StatsOf | app/payment/page.tsx:101-113 | count = filtered length, revenue = its sum, average × count = revenue, and all are 0 for an empty list |
| PaymentHistory.Summarize | app/payment/page.tsx:52-113 | transaction count = filtered length, revenue = sum over matching payments, the average is that revenue over the guarded divisor, all figures 0 when nothing matches |

## Left out

- Window-width tracking and the open/closed state of the cart drawer and mobile menu (app/page.tsx:43-60, 78-80) are left out. They are layout state, not part of the cart.
- The point-of-sale category tabs (`activeTab`) are left out. They only highlight a tab and never filter the menu.
- The point-of-sale search box (app/pos/page.tsx:123-127) is left out. It has no value and no change handler, so it filters nothing.
- The period selector on the payment page (`selectedPeriod`) is left out. It is never used to filter.
- The store client (lib/supabase.ts) is not part of this model. The insert at checkout becomes the `StoreReply` parameter.
- The payment fetch and its loading flag (app/payment/page.tsx:25-43) are left out. The payments are an input sequence.
- `alert` and `console.error` are not modelled. `alert` shows a message and `console.error` writes a log line; neither changes state.
- The `await` in `handleCheckout` is not modelled. Clicks that arrive while the insert is in flight are outside the model, because it treats checkout as one atomic step.
- Floating-point rounding and `toFixed(2)` are not modelled. Amounts are exact reals.
- `PointOfSale.Total`: states total = subtotal × 11/10 over exact reals. It does not capture that `subtotal * 0.1` in binary floating point can differ from that in the last place.
- `Lists.Sum` nests its additions to the right, `x0 + (x1 + ...)`, while `reduce` nests them to the left from 0, `((0 + x0) + x1) + ...`. Over exact reals both give the same number; in floating point they can differ in the last place.
- `toLowerCase` covers only the ASCII letters A-Z. Other case mappings of Unicode are not modelled.
- Quantities and deltas are unbounded integers. The buttons only pass +1 and -1, and JavaScript's non-integer numbers are not modelled.
- Images and the dietary flags are carried or dropped. The flags are `isSpicy` and `isVegetarian` on the point-of-sale page and `is_spicy` and `is_vegetarian` on the menu page. No logic reads them.
- The menu page's add-item dialog is left out. It has no submit handler, so the menu items are never changed.
- The reports, settings and layout pages and the sidebar, menu-item and order-item components are left out. They are presentation only or sums over constant sample data.
