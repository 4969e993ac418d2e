# Tally merchant: a verified model of the storefront and dashboard logic

Tally is a multi-tenant shop builder. Merchants sign up, create a store on a
subdomain, add products (optionally with size/colour variants), and watch
orders and customers on a dashboard. Shoppers browse a store under its own host
name, fill a cart and check out through a hosted payment page or a WhatsApp
hand-off.

Most of the code is thin glue over a hosted database. This project models the
parts that hold real logic, one Dafny module per source file:

| module | file | what it is |
|---|---|---|
| `Cart` | `components/cart-provider.tsx` | the browser cart: add, remove, update quantity, clear, total and item count; a `CartProvider` class whose `items` field each action replaces |
| `Variants` | `app/dashboard/products/new/page.tsx` | parsing comma-separated option values and expanding them into every combination (a recursive method with an accumulating loop), plus the form state that regenerates the list |
| `Checkout` | `api/checkout/route.ts` | the checkout handler: total, order row, item rows, and the early returns on auth, insert and gateway results |
| `Proxy` | `proxy.ts` | the routing decision: pass through, rewrite to a storefront path, or redirect to the login page |
| `Customers` | `app/dashboard/customers/page.tsx` | grouping orders by customer email in a loop over a JavaScript `Map` |
| `Analytics` | `app/dashboard/analytics/page.tsx` | the 30-day revenue, order count, average order value, per-day series, and chart scale |
| `Overview` | `app/dashboard/page.tsx` | revenue, pending count, five newest orders, short id and status label |
| `Actions` | `app/actions.ts` | validation order and written rows of `createStore`, `addProduct` and `updateProduct` |
| `ProductSearch` | `app/dashboard/products/product-search.tsx` | setting and deleting the `query` and `status` parameters |

Three shared modules support them. `Common` holds `Option` and `StartsWith`.
`Orders` holds the order record of `app/index.ts`. `Grouping` holds grouping by
a key in first-appearance order, with per-key sums. Both the customers page and
the analytics page use it.

Everything outside the program is an input. This covers the session user, database
results, the payment gateway's answer, `window.confirm`, the date-label
function, the number and JSON parsers, and URL encoding. Each operation
returns what it answers and what it sends out, so the
branches can be stated exactly.

Amounts in the cart, checkout and dashboards are integers in the store's
currency units (see "## Left out"). Averages and bar heights are reals. Form prices are
`Number = NaN | Num(real)`, the result of an abstract `parseFloat`.

## Model

| member | source | states |
|---|---|---|
| Cart.WithQuantity | tally-merchant/components/cart-provider.tsx:77 | `{ ...newItem, quantity }` keeps the product's id, price and store and carries the given quantity |
| Cart.ItemsAfterAdd | tally-merchant/components/cart-provider.tsx:58-79 | the store check on the first line comes first: declined leaves the cart unchanged, confirmed gives exactly `[newItem with quantity 1]`; otherwise an existing id has its quantity raised by 1 and every other line is unchanged, and a new id is appended at the end with quantity 1 |
| Cart.IncrementId | tally-merchant/components/cart-provider.tsx:73-75 | same length; lines with the id gain 1, all others unchanged |
| Cart.ItemsAfterRemove | tally-merchant/components/cart-provider.tsx:81-83 | no surviving line has the id; the list never grows |
| Cart.RemoveKeepsOthers | tally-merchant/components/cart-provider.tsx:82 | a line survives removal iff it was in the cart and has a different id |
| Cart.RemoveDropsOneLine | tally-merchant/components/cart-provider.tsx:82 | with unique ids, removing the id at position k gives `items[..k] + items[k+1..]`, so the other lines keep their order |
| Cart.RemoveAbsent | tally-merchant/components/cart-provider.tsx:82 | removing an id no line carries changes nothing |
| Cart.ItemsAfterUpdate | tally-merchant/components/cart-provider.tsx:85-90 | a quantity below 1 is exactly `removeItem`; otherwise same length and order, only matching lines get the new quantity |
| Cart.SetQuantity | tally-merchant/components/cart-provider.tsx:87-89 | same length; matching lines get the quantity, all others unchanged |
| Cart.AddKeepsValid | tally-merchant/components/cart-provider.tsx:58-79 | `addItem` keeps a cart with one store, unique ids and quantities at least 1 in that shape |
| Cart.RemoveKeepsValid | tally-merchant/components/cart-provider.tsx:81-83 | `removeItem` keeps that shape |
| Cart.UpdateKeepsValid | tally-merchant/components/cart-provider.tsx:85-90 | `updateQuantity` keeps that shape |
| Cart.AddRaisesTotals | tally-merchant/components/cart-provider.tsx:72-77 | adding to the cart's own store raises the item count by 1 and the total by one unit price: the existing line's price, or the new product's |
| Cart.IncrementTotals | tally-merchant/components/cart-provider.tsx:73-75 | incrementing the unique line at k adds 1 to the count and that line's price to the total |
| Cart.IncrementAbsent | tally-merchant/components/cart-provider.tsx:73-75 | incrementing an absent id changes nothing |
| Cart.TotalsAppend | tally-merchant/components/cart-provider.tsx:94-95 | appending a line adds its quantity to the count and price × quantity to the total |
| Cart.RemoveLowersTotals | tally-merchant/components/cart-provider.tsx:82 | removing the unique line at k takes its quantity off the count and its subtotal off the total |
| Cart.TotalsSplit | tally-merchant/components/cart-provider.tsx:94-95 | dropping line k lowers count and total by exactly that line's share |
| Cart.TotalsBounds | tally-merchant/components/cart-provider.tsx:94-95 | with every quantity at least 1 the item count is at least the number of lines; with non-negative prices as well the total is never negative |
| Cart.CartProvider.constructor | tally-merchant/components/cart-provider.tsx:27 | the cart starts empty |
| Cart.CartProvider.AddItem | tally-merchant/components/cart-provider.tsx:58-79 | the new items are `ItemsAfterAdd` of the old; a well-formed cart stays well-formed |
| Cart.CartProvider.RemoveItem | tally-merchant/components/cart-provider.tsx:81-83 | the new items are `ItemsAfterRemove` of the old; well-formedness kept |
| Cart.CartProvider.UpdateQuantity | tally-merchant/components/cart-provider.tsx:85-90 | delegates to `RemoveItem` below 1; the new items are `ItemsAfterUpdate` of the old; well-formedness kept |
| Cart.CartProvider.ClearCart | tally-merchant/components/cart-provider.tsx:92 | the cart is empty and its total and count are 0 |
| Cart.CartProvider.CartTotal | tally-merchant/components/cart-provider.tsx:94 | `cartTotal`, the sum of price × quantity, is never negative for a cart of non-negative prices and positive quantities |
| Cart.CartProvider.ItemCount | tally-merchant/components/cart-provider.tsx:95 | `itemCount`, the sum of quantities, is at least the number of lines in a well-formed cart |
| Variants.TrimStart | tally-merchant/app/dashboard/products/new/page.tsx:39 | the result is a suffix that does not start with white space, and everything cut is white space |
| Variants.TrimEnd | tally-merchant/app/dashboard/products/new/page.tsx:39 | the result is a prefix that does not end with white space, and everything cut is white space |
| Variants.Trim | tally-merchant/app/dashboard/products/new/page.tsx:39 | `trim()` cuts leading white space and then trailing white space: the result is a prefix of the left-trimmed input that does not end with white space, and everything cut is white space |
| Variants.TrimEnds | tally-merchant/app/dashboard/products/new/page.tsx:39 | a trimmed string neither starts nor ends with white space, and every character of it occurs in the input |
| Variants.Split | tally-merchant/app/dashboard/products/new/page.tsx:39 | `split(',')` gives at least one piece and no piece contains the separator |
| Variants.JoinSplit | tally-merchant/app/dashboard/products/new/page.tsx:39 | joining the pieces with the separator gives back the original string |
| Variants.TrimAll | tally-merchant/app/dashboard/products/new/page.tsx:39 | `map(v => v.trim())`: same length, each piece trimmed |
| Variants.NonEmpty | tally-merchant/app/dashboard/products/new/page.tsx:39 | `filter(v => v !== '')`: a piece is kept iff it was in the input and is non-empty |
| Variants.NonEmptyAppend | tally-merchant/app/dashboard/products/new/page.tsx:39 | the filter works piece by piece, keeping order: filtering a concatenation concatenates the results, and a single piece survives iff it is non-empty |
| Variants.ParsedValueShape | tally-merchant/app/dashboard/products/new/page.tsx:39 | each parsed value is non-empty, has no leading or trailing white space and contains no comma |
| Variants.ValidOptions | tally-merchant/app/dashboard/products/new/page.tsx:25 | `filter(o => o.name && o.values)`: a row is kept iff it was in the input and has a non-empty name and a non-empty values string |
| Variants.ValidOptionsAppend | tally-merchant/app/dashboard/products/new/page.tsx:25 | the filter works row by row, keeping order: filtering a concatenation concatenates the results, and a single row survives iff it is valid |
| Variants.Names | tally-merchant/app/dashboard/products/new/page.tsx:49 | the option names in option order |
| Variants.ValueLists | tally-merchant/app/dashboard/products/new/page.tsx:38-39 | each option's parsed values, in option order |
| Variants.PrependAll | tally-merchant/app/dashboard/products/new/page.tsx:47-51 | fixing one value puts it in front of every combination of the rest |
| Variants.EachThenLength | tally-merchant/app/dashboard/products/new/page.tsx:43-54 | one value's combinations after another: |values| × |tails| entries |
| Variants.EachThenAt | tally-merchant/app/dashboard/products/new/page.tsx:44-53 | entry q·N + r is value q followed by tail r |
| Variants.EachThenPick | tally-merchant/app/dashboard/products/new/page.tsx:44-53 | every entry is some value followed by some tail |
| Variants.EachThenSnoc | tally-merchant/app/dashboard/products/new/page.tsx:44-53 | one more value appends its combinations at the end, as one more loop turn does |
| Variants.ChoicesCount | tally-merchant/app/dashboard/products/new/page.tsx:43-54 | the number of combinations is the product of the per-option value counts; duplicates are kept |
| Variants.EmptyListNoChoices | tally-merchant/app/dashboard/products/new/page.tsx:41 | an option with no values leaves no combinations |
| Variants.ChoicesOrder | tally-merchant/app/dashboard/products/new/page.tsx:44-53 | the first option varies slowest: combination q·N + r is value q of the first option followed by combination r of the rest |
| Variants.ChoiceMembers | tally-merchant/app/dashboard/products/new/page.tsx:44-53 | each combination picks exactly one value of every option, in option order |
| Variants.VariantsFor | tally-merchant/app/dashboard/products/new/page.tsx:29-35 | one variant per combination, in order, each the record `VariantFor` builds: the name parts joined with ` / `, price and stock 0, and the options map |
| Variants.VariantsOf | tally-merchant/app/dashboard/products/new/page.tsx:24-58 | no valid option gives no variants; every generated variant has price 0 and stock 0 |
| Variants.GenerateCombinations | tally-merchant/app/dashboard/products/new/page.tsx:28-55 | the recursion with its accumulating loop returns the variants of every combination of the options from `index` on |
| Variants.RemainingOptions | tally-merchant/app/dashboard/products/new/page.tsx:38-39 | the options from `index` on are the option at `index` followed by the rest |
| Variants.CombinationStep | tally-merchant/app/dashboard/products/new/page.tsx:44-53 | one loop turn appends exactly the recursive call's variants |
| Variants.VariantsForAppend | tally-merchant/app/dashboard/products/new/page.tsx:45-52 | the variants of two combination lists in sequence are the two lists concatenated |
| Variants.PrependStep | tally-merchant/app/dashboard/products/new/page.tsx:47-51 | fixing the first option to v is the recursive call with v added to the name parts and the options map |
| Variants.GenerateVariants | tally-merchant/app/dashboard/products/new/page.tsx:24-58 | returns `VariantsOf(options)`: nothing without valid options, else one variant per combination |
| Variants.VariantCount | tally-merchant/app/dashboard/products/new/page.tsx:25-54 | 0 variants without valid options, otherwise the product of the value counts; any valid option with no values empties the list |
| Variants.VariantShape | tally-merchant/app/dashboard/products/new/page.tsx:29-35 | variant k is named by its values joined with " / " in option order, has price 0 and stock 0, and takes each value from its own option |
| Variants.AssignLookup | tally-merchant/app/dashboard/products/new/page.tsx:49 | each option name maps to the value chosen for the last option carrying that name |
| Variants.AssignUntouched | tally-merchant/app/dashboard/products/new/page.tsx:49 | keys no option names keep their value |
| Variants.AssignKeys | tally-merchant/app/dashboard/products/new/page.tsx:49 | the map's keys are exactly the option names (plus the starting keys) |
| Variants.Assign | tally-merchant/app/dashboard/products/new/page.tsx:49 | `{ ...currentOptions, [name]: value }` in turn never drops a key, and the last name assigned maps to the last value chosen |
| Variants.SizeColourExample | tally-merchant/app/dashboard/products/new/page.tsx:24-58 | sizes S, M and colours Red, Blue give S/Red, S/Blue, M/Red, M/Blue in that order |
| Variants.AddProductForm.constructor | tally-merchant/app/dashboard/products/new/page.tsx:66-70 | unticked, one empty `Size` row, no variants |
| Variants.AddProductForm.HandleOptionsChange | tally-merchant/app/dashboard/products/new/page.tsx:72-77 | stores the rows; regenerates the variants only while ticked, else leaves them; keeps "variants reflect the options while ticked, empty otherwise" |
| Variants.AddProductForm.HandleHasVariantsChange | tally-merchant/app/dashboard/products/new/page.tsx:235-241 | ticking regenerates from the current rows, unticking empties the list |
| Checkout.CustomerName | tally-merchant/api/checkout/route.ts:34 | the full name when present and non-empty, else the non-empty fallback `Valued Customer` |
| Checkout.OrderTotal | tally-merchant/api/checkout/route.ts:26 | the reduce over price × quantity is never negative when no line has a negative price or quantity |
| Checkout.OrderRowFor | tally-merchant/api/checkout/route.ts:31-38 | the order row carries the store, the user's id and email, the customer name `CustomerName(user)` (the full name when set, else `Valued Customer`), the cart total, and status `pending` |
| Checkout.OrderItemRows | tally-merchant/api/checkout/route.ts:46-51 | one row per cart line, in order, each with the order id, the line's id as product id, its quantity and its price |
| Checkout.RowsMatchTotal | tally-merchant/api/checkout/route.ts:26-51 | the item rows add up to the order's total, and all carry the order id |
| Checkout.OrderTotalAppend | tally-merchant/api/checkout/route.ts:26 | the total of two carts in sequence is the sum of their totals |
| Checkout.Post | tally-merchant/api/checkout/route.ts:20-89 | 401 with nothing sent when there is no user; one pending order row at the cart total; an insert error gives 500 with its message and nothing more; item rows per line; an items error gives 500 `Failed to save order items`, keeps the order and skips the gateway; WhatsApp gives 200 without the gateway; otherwise one gateway call for total × 100 with the order id and the callback URL `CallbackUrl` builds from the origin and the store domain, and 500 `Payment initialization failed` or 200 with the authorization URL; 200 only after both inserts succeeded |
| Proxy.Route | tally-merchant/proxy.ts:5-48 | asset, file and API paths pass through; a rewrite happens iff the path is not one of those and the host is a storefront, and it targets `/` + host + path; a redirect always goes to `/login` |
| Proxy.PassThroughFirst | tally-merchant/proxy.ts:10-16 | paths starting with `/_next` or `/api`, or containing `.`, pass through whatever the host and session |
| Proxy.RewriteIffStore | tally-merchant/proxy.ts:20-25 | outside those paths, a request is rewritten iff its host is neither `localhost:3000` nor `127.0.0.1:3000`, and then the session plays no part |
| Proxy.RewriteShape | tally-merchant/proxy.ts:24 | the rewrite target is `/`, the host, then the path: it starts with `/` and ends with the original path |
| Proxy.MissingHostIsStore | tally-merchant/proxy.ts:6 | a missing Host header is the empty host, a storefront, rewritten to `/` + path |
| Proxy.RedirectIff | tally-merchant/proxy.ts:43-47 | a redirect, always to `/login`, happens iff a main-host request outside the pass-through paths has the `/dashboard` prefix and no user; every other main-host request passes through |
| Proxy.PrefixGatesLookalikes | tally-merchant/proxy.ts:43 | `/dashboards` on the main host without a user is redirected too |
| Grouping.FirstKeys | tally-merchant/app/dashboard/customers/page.tsx:52-60 | the distinct keys never outnumber the orders; their order is `FirstKeysOrder` |
| Grouping.FirstKeysOrder | tally-merchant/app/dashboard/customers/page.tsx:52-60 | the keys come in first-insertion order, as a `Map` keeps them: each key first occurs in the orders, and a key listed earlier first occurs at an earlier index |
| Grouping.FirstKeysDistinct | tally-merchant/app/dashboard/customers/page.tsx:52-60 | no key is listed twice |
| Grouping.FirstKeysMember | tally-merchant/app/dashboard/customers/page.tsx:52 | a key is listed iff some order carries it |
| Grouping.FirstIndex | tally-merchant/app/dashboard/customers/page.tsx:52-59 | the first position whose order carries the key, or the length when none does |
| Grouping.SumKeyAbsent | tally-merchant/app/dashboard/customers/page.tsx:62-67 | a key no order carries sums to 0 |
| Grouping.SumOverKeysAppend | tally-merchant/app/dashboard/customers/page.tsx:62-67 | one more order adds its amount to exactly one key's sum |
| Grouping.SumOverFirstKeys | tally-merchant/app/dashboard/customers/page.tsx:50-69 | the per-key sums over the distinct keys add up to the sum over all orders |
| Grouping.SumOverKeysSnoc | tally-merchant/app/dashboard/customers/page.tsx:50-69 | one more key adds that key's sum |
| Grouping.TotalOne | tally-merchant/app/dashboard/customers/page.tsx:63 | counting 1 per order gives the number of orders |
| Customers.CustomerFor | tally-merchant/app/dashboard/customers/page.tsx:53-67 | the row for a listed email carries that email and counts at least one order; name and date come from the email's first order, `totalOrders` counts all its orders, `totalSpent` sums its non-cancelled amounts |
| Customers.SumKeyAtLeastOne | tally-merchant/app/dashboard/customers/page.tsx:63 | an email that occurs is counted at least once |
| Customers.SumKeyNonNegative | tally-merchant/app/dashboard/customers/page.tsx:63 | counts are never negative |
| Customers.GroupCustomers | tally-merchant/app/dashboard/customers/page.tsx:50-71 | null orders give no customers; otherwise exactly one row per distinct email, in first-appearance order, each equal to `CustomerFor` |
| Customers.CustomersMap | tally-merchant/app/dashboard/customers/page.tsx:50-69 | the loop leaves the map's keys in first-appearance order and each entry equal to `CustomerFor` |
| Customers.GroupedRows | tally-merchant/app/dashboard/customers/page.tsx:71 | once every order is processed, the map's values in key order are the rows |
| Customers.GroupedStep | tally-merchant/app/dashboard/customers/page.tsx:51-68 | one loop turn (create the entry on first sight, then count the order and add its non-cancelled amount) keeps the key list and the map equal to the rows for the orders seen |
| Customers.Counted | tally-merchant/app/dashboard/customers/page.tsx:63-67 | counting one more order raises `totalOrders` by 1 and `totalSpent` by its amount unless it is cancelled, and changes nothing else |
| Customers.StepRow | tally-merchant/app/dashboard/customers/page.tsx:51-68 | after one loop turn the entry for any listed email equals its row for the orders seen |
| Customers.CustomerForSnoc | tally-merchant/app/dashboard/customers/page.tsx:51-68 | one more order adds 1 and its spend to its own email's row and leaves other rows alone; a new email starts with count 1 |
| Customers.ColumnSums | tally-merchant/app/dashboard/customers/page.tsx:63-67 | the table's columns add up to the per-key sums |
| Customers.CustomerTotals | tally-merchant/app/dashboard/customers/page.tsx:50-69 | the `totalOrders` column adds up to the number of orders, cancelled included; `totalSpent` adds up to the non-cancelled revenue |
| Customers.NewestOrderWins | tally-merchant/app/dashboard/customers/page.tsx:53-59 | with orders newest first, a customer's name and last-order date come from an order at least as new as all their others |
| Analytics.WindowQuery | tally-merchant/app/dashboard/analytics/page.tsx:35-41 | an order is in the input iff it belongs to the store, falls in the window and is not cancelled |
| Analytics.WindowQueryAppend | tally-merchant/app/dashboard/analytics/page.tsx:35-41 | the query is a row-by-row filter: it distributes over concatenation and returns a single row iff it matches, so order and repeated rows are kept |
| Analytics.SalesByDate | tally-merchant/app/dashboard/analytics/page.tsx:44-57 | the loop gives the dates in first-appearance order, each date's sum of amounts, the total revenue and the number of orders; null orders give zeros |
| Analytics.SalesStep | tally-merchant/app/dashboard/analytics/page.tsx:47-56 | one turn of the `forEach` lists the order's date if new and adds its amount to that date's sum, keeping the map equal to the per-date sums of the orders seen |
| Analytics.ChartData | tally-merchant/app/dashboard/analytics/page.tsx:59 | one point per date, in insertion order, carrying that date's sum |
| Analytics.AverageOrderValue | tally-merchant/app/dashboard/analytics/page.tsx:60 | average × count = revenue when there are orders, 0 otherwise |
| Analytics.MaxAmount | tally-merchant/app/dashboard/analytics/page.tsx:63 | at least 1, at least every amount, and equal to one of them unless it is 1 |
| Analytics.BarHeight | tally-merchant/app/dashboard/analytics/page.tsx:116-122 | at least 1%, at most 100% for amounts within the scale, exactly amount/max × 100 when that is at least 1, and exactly 1% when it is at most 1 |
| Analytics.ChartSumIsKeySum | tally-merchant/app/dashboard/analytics/page.tsx:50-59 | the chart's amounts sum to the per-date sums |
| Analytics.ChartMatchesRevenue | tally-merchant/app/dashboard/analytics/page.tsx:44-59 | the bars add up to the revenue card and no date has two bars |
| Analytics.ChartDatesAreOrderDates | tally-merchant/app/dashboard/analytics/page.tsx:59 | a date has a bar iff some order falls on it |
| Analytics.BuildReport | tally-merchant/app/dashboard/analytics/page.tsx:44-63 | revenue, count and average as above; one bar per distinct date in first-appearance order, each carrying that date's sum; bars summing to revenue; a scale of at least 1, at least every bar, and equal to some bar unless it is 1 |
| Analytics.ThreeOrderExample | tally-merchant/app/dashboard/analytics/page.tsx:35-60 | orders of 1000, 2000 and a cancelled 5000 give revenue 3000 over 2 orders, average 1500 |
| Overview.AllOrders | tally-merchant/app/dashboard/page.tsx:28 | a null result is no orders |
| Overview.TotalRevenue | tally-merchant/app/dashboard/page.tsx:30-32 | revenue is exactly the sum of the paid amounts plus the sum of the shipped amounts |
| Overview.RevenueByStatus | tally-merchant/app/dashboard/page.tsx:30-32 | revenue together with the pending and cancelled amounts makes up the sum of all amounts |
| Overview.RevenueAppend | tally-merchant/app/dashboard/page.tsx:30-32 | revenue of two lists in sequence is the sum of their revenues |
| Overview.ActiveOrdersCount | tally-merchant/app/dashboard/page.tsx:34 | the count is the number of orders whose status is pending (the multiplicity of pending among the statuses) |
| Overview.ActiveOrdersExtremes | tally-merchant/app/dashboard/page.tsx:34 | at most the number of orders; 0 iff no order is pending; all iff every order is pending |
| Overview.RecentOrders | tally-merchant/app/dashboard/page.tsx:35 | the first min(5, n) orders |
| Overview.RecentAreNewest | tally-merchant/app/dashboard/page.tsx:22-35 | with orders newest first, every listed order is at least as new as every unlisted one |
| Overview.ShortId | tally-merchant/app/dashboard/page.tsx:91 | a prefix of the id of length min(8, length) |
| Overview.UpperChar | tally-merchant/app/dashboard/page.tsx:105 | lower-case ASCII letters become their capitals, everything else is unchanged |
| Overview.Capitalize | tally-merchant/app/dashboard/page.tsx:105 | same length, only the first character upper-cased |
| Overview.StatusLabel | tally-merchant/app/dashboard/page.tsx:105 | the badges read Paid, Pending, Shipped and Cancelled |
| Actions.Field | tally-merchant/app/actions.ts:65-66 | `formData.get`: the field's text when present, null otherwise |
| Actions.ParseField | tally-merchant/app/actions.ts:111 | an absent field parses to NaN, a present one to its parse |
| Actions.OptionalNumber | tally-merchant/app/actions.ts:116-117 | null iff the field is absent or empty, otherwise the field's parse |
| Actions.NameMissing | tally-merchant/app/actions.ts:119 | a name passes iff the field is present with at least two characters |
| Actions.PriceRejected | tally-merchant/app/actions.ts:123 | a price passes iff it is a number and at least 0 |
| Actions.CreateStore | tally-merchant/app/actions.ts:55-88 | no user: the login error and no insert; empty store name or subdomain: the required-fields error and no insert; otherwise the row (owner, name, slug = subdomain, currency NGN) is inserted, and the answer is the redirect to `/dashboard` when the insert succeeds, `This subdomain is already taken.` for code 23505, and the database message for any other error |
| Actions.CreateStoreSucceedsIff | tally-merchant/app/actions.ts:61-87 | an insert happens iff there is a user and both fields are filled; the redirect to `/dashboard` happens iff that insert succeeded |
| Actions.PostedVariants | tally-merchant/app/actions.ts:149-153 | an empty or absent field, or JSON that fails to parse, gives no variants |
| Actions.VariantRows | tally-merchant/app/actions.ts:172-181 | one row per variant, in order, with the product id and the variant's name, price, stock and options |
| Actions.AddProduct | tally-merchant/app/actions.ts:90-191 | checks user, store, name (missing or shorter than 2), price (NaN or negative) in that order, each failing with its message and writing nothing; once they pass, a failed upload of an attached image stops with `Image upload failed: ` + message and no insert; otherwise the product row `ProductRowFor` builds is inserted with the parsed price, optional prices null iff their field is absent or empty, and images only when uploaded; an insert error returns its message with no variant rows; a successful insert redirects to `/dashboard/products` with one variant row per posted variant |
| Actions.AddProductSucceedsIff | tally-merchant/app/actions.ts:90-191 | a product row is sent iff every check passes and an attached image was stored; the redirect happens iff, in addition, the insert succeeded |
| Actions.ZeroPriceAccepted | tally-merchant/app/actions.ts:123-125 | a price of 0 passes the check |
| Actions.VariantErrorIgnored | tally-merchant/app/actions.ts:183-186 | the variant insert's error never changes the response or the rows |
| Actions.VariantRowsPerVariant | tally-merchant/app/actions.ts:149-186 | after a successful insert, one variant row per posted variant carrying the product id; unparseable JSON gives none and no error |
| Actions.FormArgument | tally-merchant/app/actions.ts:231 | the first argument when it is form data, otherwise the second |
| Actions.UpdateProduct | tally-merchant/app/actions.ts:230-326 | no form data: `Invalid form data.`; then user, id (`Product ID is required.`) and store checks in that order, each writing nothing; once they pass, a failed upload of an attached image stops with its message and no update; otherwise the update `UpdateFor` builds targets the form's id and sets images iff an image was uploaded, and the answer is the update's error or the redirect |
| Actions.UpdateProductSucceedsIff | tally-merchant/app/actions.ts:230-326 | an update is sent iff the form, user, id and store checks pass and an attached image was stored; the redirect happens iff, in addition, the update reports no error |
| Actions.UpdateSkipsFieldChecks | tally-merchant/app/actions.ts:259-325 | neither name nor price is checked: with a user, an id, a store, no image and no database error, any form is written and redirected |
| Actions.FormInEitherArgument | tally-merchant/app/actions.ts:231 | passing the form as the first or the second argument gives the same result |
| ProductSearch.DeleteEntry | tally-merchant/app/dashboard/products/product-search.tsx:22 | `delete`: a pair survives iff it was present and has another name; the list never grows |
| ProductSearch.DeleteAppend | tally-merchant/app/dashboard/products/product-search.tsx:22 | `delete` works pair by pair, keeping order: deleting from a concatenation concatenates the results, and a single pair survives iff it has another name |
| ProductSearch.DeleteGet | tally-merchant/app/dashboard/products/product-search.tsx:22 | after `delete`, the key reads as absent and every other key reads as before |
| ProductSearch.DeleteTwice | tally-merchant/app/dashboard/products/product-search.tsx:22 | deleting twice is deleting once |
| ProductSearch.ReplaceFirstFacts | tally-merchant/app/dashboard/products/product-search.tsx:20 | `set` on a present key: the key reads the new value, other keys as before, and only that key changed |
| ProductSearch.AppendFacts | tally-merchant/app/dashboard/products/product-search.tsx:20 | `set` on an absent key: the same three facts |
| ProductSearch.SetFacts | tally-merchant/app/dashboard/products/product-search.tsx:20 | after `set`, the key reads the new value, every other key reads as before, and removing the key gives the same list as before |
| ProductSearch.SearchParams.constructor | tally-merchant/app/dashboard/products/product-search.tsx:18 | the copy starts with the current parameters |
| ProductSearch.SearchParams.Set | tally-merchant/app/dashboard/products/product-search.tsx:20 | the entries become `SetEntry` of the old |
| ProductSearch.SearchParams.Delete | tally-merchant/app/dashboard/products/product-search.tsx:22 | the entries become `DeleteEntry` of the old |
| ProductSearch.HandleSearch | tally-merchant/app/dashboard/products/product-search.tsx:17-25 | navigates to `/dashboard/products?` followed by the serialised parameters after the search edit |
| ProductSearch.HandleStatusChange | tally-merchant/app/dashboard/products/product-search.tsx:28-36 | navigates to `/dashboard/products?` followed by the serialised parameters after the status edit |
| ProductSearch.SearchEditsOnlyQuery | tally-merchant/app/dashboard/products/product-search.tsx:18-23 | a non-empty term sets `query`, an empty one deletes it, and every other parameter is unchanged |
| ProductSearch.StatusEditsOnlyStatus | tally-merchant/app/dashboard/products/product-search.tsx:29-34 | a status other than empty and `all` sets `status`, those two delete it, and every other parameter is unchanged |
| ProductSearch.ReplaceFirst | tally-merchant/app/dashboard/products/product-search.tsx:20 | `set` on a present name: exactly one pair carries the name, with the new value, and the list never grows |
| ProductSearch.SetEntry | tally-merchant/app/dashboard/products/product-search.tsx:20 | after `set` exactly one pair carries the name, with the new value; a present name keeps the list from growing, an absent one is appended at the end |
| ProductSearch.Serialize | tally-merchant/app/dashboard/products/product-search.tsx:24 | `toString()` is empty iff there are no pairs |
| ProductSearch.SerializeAppend | tally-merchant/app/dashboard/products/product-search.tsx:24 | serialising two non-empty lists in sequence joins their serialisations with `&` |
| ProductSearch.AfterSearch | tally-merchant/app/dashboard/products/product-search.tsx:18-23 | a non-empty term leaves exactly one `query` pair carrying it; an empty term leaves none |
| ProductSearch.AfterStatusChange | tally-merchant/app/dashboard/products/product-search.tsx:29-34 | a status other than empty and `all` leaves exactly one `status` pair carrying it; empty or `all` leaves none |

## Left out

- Database, auth, storage and payment calls are not modelled. Their results are inputs: user present or absent, store found or not, insert ok or its error, upload ok or its error, gateway status and URL.
- Cart persistence is not modelled: loading from and saving to `localStorage` and the zero-delay timer (cart-provider.tsx:31-55). These are browser effects; the cart starts empty.
- The 300 ms debounce timer in `handleSearch` is not modelled; `HandleSearch` is the body that runs when the timer fires. `replace` is modelled by returning its target.
- Cart.CartProvider.UpdateQuantity: quantities are integers; a fractional JavaScript quantity is not modelled.
- Analytics.WindowQuery: the database does the ordering by `created_at`. The model takes rows in whatever order the database returns. The 30-day window (a clock reading) and the date label (`toLocaleDateString`) are function parameters.
- Analytics.AverageOrderValue and Analytics.BarHeight use exact reals, not IEEE doubles, and do no currency formatting (`Intl.NumberFormat`).
- Actions.AddProduct: `parseFloat`, `parseInt` and `JSON.parse` are abstract parameters. `Number` has no `Infinity`, so a price such as `"Infinity"` cannot be expressed. The JSON shape of the posted variants is taken as given, not checked.
- Actions.AddProduct and Actions.UpdateProduct: the storage file name (built from the clock and a random number) is not modelled. Only "an image was stored at this public URL" is.
- `signUp`, `signIn`, `forgotPassword`, `updateProfile`, `deleteProduct` and `updateStore` in actions.ts are not modelled. They pass calls straight to the backend and have no validation logic.
- Per-variant price and stock edits on the new-product page are not modelled (new/page.tsx:319-337). After such an edit the list no longer equals the generated one until the next regeneration. Option-row add, remove and rename go through `handleOptionsChange`, whose argument stands for the new rows.
- Proxy.RewriteShape: the rewrite target is the path string handed to `new URL(path, request.url)`. URL resolution is not modelled. In particular, a missing host gives `//path`, which `new URL` would read as a host.
- Proxy.Route: cookie plumbing for the session client (proxy.ts:28-39) and the `config.matcher` pattern (proxy.ts:50-52) are not modelled.
- Overview.UpperChar: only ASCII letters are mapped, which covers the four status words. Full Unicode case mapping is not modelled.
- Overview.ShortId and Actions.AddProduct: string lengths count Unicode scalar values, not JavaScript's UTF-16 code units.
- Checkout.Post: a gateway call that throws (a rejected `fetch`, a reply that is not JSON, or a reply without `data`) is not modelled; the model always answers from an abstract reply. In the source such a throw escapes the handler after the order and item rows are saved, so the order stays `pending` with no handler response.
- Checkout.Post: malformed request bodies, and a missing `Origin` header (which JavaScript would render as `null`), are not modelled. `request.json()` is taken to yield the four fields.
- Cart, Checkout.Post, Checkout.OrderTotal and the dashboards (Customers, Analytics, Overview): prices, totals and amounts are integers. `addProduct` stores `parseFloat` prices, so real prices can be fractional; fractional prices, the float rounding of `price * quantity` sums, and a non-integer gateway amount `totalAmount * 100` are not modelled.
- Variants.ParseValues, Variants.Join and Variants.Choices carry no contract of their own: their properties are the lemmas `ParsedValueShape` (trimmed, non-empty, comma-free values), `JoinSplit` (the inverse of `split`), and `ChoicesCount`, `ChoicesOrder` and `ChoiceMembers` (size, order and members of the product).
- Cart.CartTotalOf and Cart.ItemCountOf carry no contract of their own: their bounds are `TotalsBounds` and their behaviour under each action is `AddRaisesTotals`, `IncrementTotals`, `RemoveLowersTotals`, `TotalsAppend` and `TotalsSplit`.
