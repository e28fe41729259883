# Business-management dashboard: a verified model of its data logic

The dashboard is a React admin front end over a remote demo store (carts,
users, products). This project models the part of it that computes and
changes data, and proves what that part promises:

- the order service (`src/services/api.js`):
  - it joins carts with their users and products and prices every order;
  - it generates numeric ids for locally created orders from the clock and a random number;
  - it routes delete and lookup by the digit count of an order id, between the remote store and the browser store;
- the two dashboard charts:
  - revenue per product category, capitalised and sorted largest first;
  - twelve monthly totals for the year 2020;
- the orders provider and the products page: collection stores read cache-first from the browser store, then appended to, replaced by id or filtered by id;
- the users page, which appends users with sequential ids, and the authentication provider (login, logout, register);
- the validators of the new-order form, the products page, the users page and the stand-alone product form, and the new-order form's list of product lines, which never becomes empty.

Modelling choices:

- Money is whole cents (`int`).
- A cart date is a `(year, month)` pair, with months counted from 0.
- Each remote response, the clock, the random number and the user's confirmation are parameters. A response is a `Result`, an outcome an `Outcome`.
- The browser store is a map from keys to values, one map per value type.
- A form field that can be left empty is an `Option`.

Stateful parts of the source are classes whose methods say, with `old`, how the fields change:

- `OrderContext.OrderProvider` and `AuthContext.AuthProvider`;
- `ProductsPage.ProductsPage` and `UsersPage.UsersPage`;
- `NewOrder.OrderForm`;
- the two chart components.

The category chart's nested loops and the monthly chart's twelve-slot array are `while` loops. Their invariants tie them to specification functions, and the lemmas about those functions carry the properties.

Modules, in dependency order:

- `Wrappers`: `Option`, `Result`, `Outcome`.
- `Decimal`: decimal text, `slice(-k)`, `padStart`, `parseInt`.
- `Entities`: the store's records.
- `Lookup`: keyed tables, and removing or replacing list elements by id.
- `Api`, `CategoryChart`, `SalesChart`, `OrderContext`, `AuthContext`, `ProductsPage`, `UsersPage`, `NewOrder` (the new-order form), `ProductForm` (the stand-alone product form).

An edge case of the id scheme is made explicit by `Api.GeneratedIdLocality`:

- A locally generated id is `(clock mod 10^9) * 1000 + random`.
- It counts as local (more than six digits) only when `clock mod 10^9 >= 1000`.
- In the rare millisecond windows where it is smaller, delete and lookup treat the id as a remote one.

## Model

| member | source | states |
|---|---|---|
| Lookup.AssocLastWins | src/services/api.js:17-20 | after writing `acc[k] = v` pair by pair, a key is present iff some pair has it, and it maps to the value of the last such pair |
| Lookup.IndexByLastWins | src/services/api.js:17-25 | the id table built by `reduce` holds exactly the ids of the list, each mapped to the last element carrying it (later duplicates overwrite) |
| Lookup.BuildMap | src/components/dashboard/SalesOverviewChart.jsx:22-25 | the accumulator loop ends with exactly the table of the pairs (the same `reduce` as api.js:17-25 and CategoryDistributionChart.jsx:25-28) |
| Lookup.RemoveKey | src/context/OrderContext.jsx:51 | `filter` by id keeps only elements of the input whose id differs, and keeps every one of those |
| Lookup.RemoveKeyAppend | src/pages/Products.jsx:78 | filtering distributes over concatenation, so the kept elements stay in their original order |
| Lookup.RemoveKeyAbsent | src/context/OrderContext.jsx:51 | removing an id no element carries changes nothing |
| Lookup.ReplaceKeyReplaces | src/pages/Products.jsx:60-64 | when the edited product keeps its id, the list keeps its length and the id of every position; every product carrying the id is the edited one, which is present iff the id was |
| Lookup.ReplaceKeyKeepsOthers | src/pages/Products.jsx:60-64 | when the replacement keeps the id, the elements with other ids are the same list, in the same order, before and after |
| Decimal.ParseAppend | src/services/api.js:57 | `parseInt` of a concatenation of digit texts is the first value shifted by the length of the second plus the second |
| Decimal.ParseToDecimal | src/services/api.js:57 | `parseInt(n.toString()) == n` |
| Decimal.ParseSuffix | src/services/api.js:57 | the last k digits of a digit text read back as its value modulo 10^k |
| Decimal.DecimalLength | src/services/api.js:113 | the text of n has at most k characters iff n < 10^k |
| Decimal.TakeLast | src/services/api.js:57 | `slice(-k)` is a suffix of the input of length min(k, length) for k >= 1, and the whole input for k = 0 |
| Decimal.PadStart | src/services/api.js:57 | `padStart(k, '0')` yields max(k, length) characters: zeros followed by the input, which a text of k or more characters is left as |
| Decimal.PadStartParse | src/services/api.js:57 | padding a digit text with zeros keeps it a digit text with the same value |
| Api.TotalAppend | src/services/api.js:30-33 | the total of concatenated lines is the sum of their totals |
| Api.TotalIgnoresUnresolved | src/services/api.js:31-32 | a line whose product does not resolve contributes 0: removing it leaves the total unchanged |
| Api.TotalNonNegative | src/services/api.js:30-33 | with non-negative prices and quantities the total is non-negative |
| Api.DetailTotalMatches | src/services/api.js:30-42 | the total recomputed from an order's own resolved lines equals the total computed from the product table |
| Api.JoinSound | src/services/api.js:35-42 | an enriched order keeps every field of its cart and every line's id and quantity in order; it carries the given user; each line's `details` is the table entry for its product, possibly absent; the total invariant holds |
| Api.EnrichAllSound | src/services/api.js:28-44 | the enriched list has the carts' length and order; order i is cart i enriched with `userMap[userId]`, possibly absent |
| Api.FetchOrders | src/services/api.js:5-46 | the result succeeds iff all three requests do; it is then the carts enriched through the last-wins user and product tables, same length and order, every order satisfying the total invariant |
| Api.LineKeyedCovers | src/services/api.js:70-73 | every line's product id is a key of the table built from the per-line responses, and maps to the response fetched for the last line naming it |
| Api.GeneratedIdValue | src/services/api.js:57 | the generated id equals (now mod 10^9) * 1000 + rnd, its last three digits are rnd (1..999) and it is below 10^12 |
| Api.RandomPart | src/services/api.js:57 | the padded random number has exactly three digits and reads back as itself |
| Api.ClockPart | src/services/api.js:57 | the last nine characters of the clock's text read back as the clock modulo 10^9 |
| Api.LocalIdThreshold | src/services/api.js:126 | an id's text has more than six characters iff the id is at least 1000000 |
| Api.GeneratedIdLocality | src/services/api.js:57 | a generated id is local (more than six digits) iff the clock part is at least 1000 |
| Api.DeleteOrder | src/services/api.js:109-121 | the remote delete is issued iff the id has at most six digits; a success always returns the same id; it fails iff the remote delete was issued and failed |
| Api.FindIndex | src/services/api.js:130 | `find` by id: the first position with that id, or none iff no order has it |
| Api.FromLocalStorage | src/services/api.js:126-135 | succeeds iff the `'orders'` key is present and some cached order has the id; the result is the first such order |
| Api.FetchOrderById | src/services/api.js:123-169 | ids above six digits are answered from the browser store alone, with no remote call; shorter ones succeed iff all requests do, giving the cart joined with its user and every line resolved, with the total invariant |
| Api.CreateOrder | src/services/api.js:53-102 | succeeds iff the user, product and post requests do; the order is the post response with the generated id ((now mod 10^9) * 1000 + rnd), the user, the total of the lines and the draft's lines and date, every line resolved, total invariant holding |
| CategoryChart.KeyIndexSpec | src/components/dashboard/CategoryDistributionChart.jsx:38-40 | looking a property up finds the first entry with that key, and finds none iff no entry has it |
| CategoryChart.PutDistinct | src/components/dashboard/CategoryDistributionChart.jsx:40 | writing a property keeps the keys distinct and adds one entry exactly when the key was new |
| CategoryChart.ReadPut | src/components/dashboard/CategoryDistributionChart.jsx:40 | after `categorySales[k] = v`, reading k gives v and every other key reads as before |
| CategoryChart.TallyDistinct | src/components/dashboard/CategoryDistributionChart.jsx:31-43 | the accumulated object has distinct keys |
| CategoryChart.TallyKeys | src/components/dashboard/CategoryDistributionChart.jsx:31-43 | a bucket exists iff some credited sale carries that raw category |
| CategoryChart.TallyValue | src/components/dashboard/CategoryDistributionChart.jsx:38-40 | each bucket holds exactly the sum of the amounts of its category's sales |
| CategoryChart.TallySum | src/components/dashboard/CategoryDistributionChart.jsx:34-43 | the buckets together hold the amount of all credited sales |
| CategoryChart.CartSalesCategories | src/components/dashboard/CategoryDistributionChart.jsx:34-38 | a sale of category k exists iff some line of some cart resolves to a product of category k; unresolved lines yield none |
| CategoryChart.LineSalesMatchTotal | src/components/dashboard/CategoryDistributionChart.jsx:35-41 | the resolved sales of one cart sum to the order total the order service computes for it |
| CategoryChart.CartSalesMatchTotals | src/components/dashboard/CategoryDistributionChart.jsx:34-43 | the sales of all carts sum to the sum of their order totals |
| CategoryChart.BucketsOfCarts | src/components/dashboard/CategoryDistributionChart.jsx:31-46 | one bucket per distinct raw category with a resolved line and no other, holding that category's `price * quantity` sum; all buckets together hold the sum of the carts' totals |
| CategoryChart.CapitalizeFirstOnly | src/components/dashboard/CategoryDistributionChart.jsx:48 | only the first character of a label can change and it is not a lower-case letter afterwards; the rest is unchanged |
| CategoryChart.Label | src/components/dashboard/CategoryDistributionChart.jsx:46-50 | one slice per bucket, in bucket order; slice i is bucket i's key with its first character upper-cased, and bucket i's value |
| CategoryChart.LabelSum | src/components/dashboard/CategoryDistributionChart.jsx:46-50 | labelling keeps the sum of the values |
| CategoryChart.InsertDesc | src/components/dashboard/CategoryDistributionChart.jsx:51 | inserting adds exactly the one element (multiset) and its value to the sum |
| CategoryChart.InsertDescSorted | src/components/dashboard/CategoryDistributionChart.jsx:51 | inserting into a non-increasing list keeps it non-increasing |
| CategoryChart.SortDesc | src/components/dashboard/CategoryDistributionChart.jsx:51 | the sorted list is non-increasing by value and a permutation of the input, with the same sum |
| CategoryChart.CreditLines | src/components/dashboard/CategoryDistributionChart.jsx:35-42 | the inner loop over a cart's lines leaves the object of all sales credited so far plus this cart's resolved sales |
| CategoryChart.CategoryDistribution | src/components/dashboard/CategoryDistributionChart.jsx:25-51 | the chart data is the sorted, labelled buckets of all resolved lines: non-increasing, a permutation of the labelled buckets, summing to the carts' totals |
| CategoryChart.ChartSlices | src/components/dashboard/CategoryDistributionChart.jsx:25-51 | the chart has one slice per distinct raw category; every category some line resolves to contributes its capitalised name with its `price * quantity` sum, and no other slice appears |
| CategoryChart.CaseVariantsStaySeparate | src/components/dashboard/CategoryDistributionChart.jsx:40-48 | "electronics" and "Electronics" give two slices, both labelled "Electronics", ordered by value |
| CategoryChart.DistributionChart.constructor | src/components/dashboard/CategoryDistributionChart.jsx:9-10 | the chart starts empty and loading |
| CategoryChart.DistributionChart.FetchCategoryData | src/components/dashboard/CategoryDistributionChart.jsx:12-58 | with both responses the data becomes the chart of the carts; a failed request keeps the data; loading ends false either way |
| SalesChart.MonthTotalAppend | src/components/dashboard/SalesOverviewChart.jsx:29-39 | each bucket of a concatenation of cart lists is the sum of the two lists' buckets |
| SalesChart.CartAddsToItsMonth | src/components/dashboard/SalesOverviewChart.jsx:31-37 | a cart adds its total (missing prices counted 0) to the bucket of its own month when it is dated 2020, and changes no bucket otherwise |
| SalesChart.SumMonthsSnoc | src/components/dashboard/SalesOverviewChart.jsx:31-37 | one more cart raises the sum of the first n buckets by its total exactly when it is dated 2020 in one of those months |
| SalesChart.SumMonthsEmpty | src/components/dashboard/SalesOverviewChart.jsx:28 | with no carts every bucket sums to 0 |
| SalesChart.MonthsSumToYear | src/components/dashboard/SalesOverviewChart.jsx:28-39 | the twelve buckets sum to the totals of the 2020 carts |
| SalesChart.MonthTotalNonNegative | src/components/dashboard/SalesOverviewChart.jsx:33-37 | with non-negative prices and quantities every bucket is non-negative |
| SalesChart.EmptyMonthIsZero | src/components/dashboard/SalesOverviewChart.jsx:28 | a month with no cart dated in it in 2020 stays 0 |
| SalesChart.MonthlySales | src/components/dashboard/SalesOverviewChart.jsx:22-46 | exactly twelve points, named Jan..Dec in calendar order, point m holding the bucket of month m |
| SalesChart.OverviewChart.constructor | src/components/dashboard/SalesOverviewChart.jsx:9-10 | the chart starts empty and loading |
| SalesChart.OverviewChart.FetchSalesData | src/components/dashboard/SalesOverviewChart.jsx:12-53 | with both responses the data becomes the twelve monthly points; a failed request keeps the data; loading ends false either way |
| OrderContext.OrderProvider.constructor | src/context/OrderContext.jsx:15-17 | no orders, loading, nothing selected |
| OrderContext.OrderProvider.LoadOrders | src/context/OrderContext.jsx:20-37 | a cached list is taken as is with no request; otherwise the orders are fetched and, on success, become both the state and the cached value; a failure changes nothing else; loading ends false; the cache then equals the list |
| OrderContext.OrderProvider.AddOrder | src/context/OrderContext.jsx:42-46 | the list becomes the old list plus the new order and that same list is cached |
| OrderContext.OrderProvider.RemoveOrder | src/context/OrderContext.jsx:48-59 | true iff the delete succeeds; then every order with the id is gone, the rest kept in order, and the list is cached; on failure state and cache are unchanged |
| OrderContext.OrderProvider.SelectOrder | src/context/OrderContext.jsx:61-63 | only the selection changes |
| OrderContext.AddedOrderIsFound | src/context/OrderContext.jsx:43-45 | an order appended under a fresh id is what the local branch of the order lookup returns for it |
| OrderContext.RemovedOrderIsGone | src/context/OrderContext.jsx:51-53 | after a removal the local branch of the order lookup no longer finds the id |
| AuthContext.AuthProvider.constructor | src/context/AuthContext.jsx:6-10 | the user is the stored `'user'` value if the key exists, otherwise none |
| AuthContext.AuthProvider.Login | src/context/AuthContext.jsx:12-15 | the user is set and stored under `'user'`; the registered list is untouched |
| AuthContext.AuthProvider.Logout | src/context/AuthContext.jsx:17-20 | nobody is signed in and the `'user'` key is removed |
| AuthContext.AuthProvider.Register | src/context/AuthContext.jsx:22-38 | the new user is the data with its id replaced by the clock; it is appended to `'registeredUsers'` (an absent key read as empty, earlier entries kept), then signed in and stored |
| ProductsPage.FormStartValidity | src/pages/Products.jsx:6-14 | the blank add form fails the schema; a product opened for edit passes iff its text fields are filled in and its price is positive |
| ProductsPage.ProductsPage.constructor | src/pages/Products.jsx:17-20 | no products, loading, modal closed, nothing under edit |
| ProductsPage.ProductsPage.LoadProducts | src/pages/Products.jsx:26-43 | a cached list is used with no request; otherwise a fetched list becomes the state and is written under `'products'`; loading ends false |
| ProductsPage.ProductsPage.OpenAdd | src/pages/Products.jsx:98-102 | the modal opens with nothing under edit |
| ProductsPage.ProductsPage.OpenEdit | src/pages/Products.jsx:128-131 | the modal opens on the chosen product |
| ProductsPage.ProductsPage.CloseModal | src/pages/Products.jsx:227-230 | the modal closes and nothing is under edit |
| ProductsPage.ProductsPage.HandleAddProduct | src/pages/Products.jsx:45-55 | a created product is appended at the end and the modal closes; a failure changes nothing and alerts; the cache is never written |
| ProductsPage.ProductsPage.HandleEditProduct | src/pages/Products.jsx:57-72 | every product with the edited id is replaced by the response, the others kept in place; a failure, or no product under edit, changes nothing and alerts; the cache is never written |
| ProductsPage.ProductsPage.HandleDeleteProduct | src/pages/Products.jsx:74-84 | only a confirmed, successful delete removes every product with the id, keeping the rest in order; otherwise the list is unchanged; a failed delete alerts; the cache is never written |
| ProductsPage.ProductsPage.SubmitForm | src/pages/Products.jsx:160-171 | values failing the schema reach no handler and change nothing; valid ones go to edit when a product is under edit, to add otherwise; success closes the modal with nothing under edit, a failure keeps form and list and gives that handler's alert |
| UsersPage.MatchesDigitsIff | src/pages/Users.jsx:110 | the digit pattern accepts exactly the non-empty texts of ASCII digits |
| UsersPage.PhoneValidIff | src/pages/Users.jsx:109-112 | a phone number passes iff it has at least ten characters, all ASCII digits |
| UsersPage.RequiredFields | src/pages/Users.jsx:104-113 | the blank form and any form with an empty first name, last name or email, or a phone shorter than ten, are rejected |
| UsersPage.UsersPage.constructor | src/pages/Users.jsx:7-9 | no users, loading, modal closed |
| UsersPage.UsersPage.LoadUsers | src/pages/Users.jsx:12-21 | the fetched list on success, the old one on failure; loading ends false |
| UsersPage.UsersPage.OpenModal | src/pages/Users.jsx:51 | the modal opens |
| UsersPage.UsersPage.CloseModal | src/pages/Users.jsx:149 | the modal closes |
| UsersPage.UsersPage.AddUser | src/pages/Users.jsx:26-29 | exactly one user is appended, with id = old length + 1 and name {firstname, lastname} from the form; the others are unchanged and in order; the modal closes |
| UsersPage.UsersPage.SubmitForm | src/pages/Users.jsx:114-117 | only values passing the schema reach `addUser` |
| NewOrder.LinesErrorsIff | src/components/OrderForm.jsx:10-20 | the lines report no message iff every line has a product and a quantity from 1 to 100 |
| NewOrder.OrderErrorsIff | src/components/OrderForm.jsx:7-22 | the schema reports no message iff a customer is selected, there is at least one line, and every line has a product and a quantity from 1 to 100 |
| NewOrder.InitialValuesErrors | src/components/OrderForm.jsx:49-53 | the form as it opens reports exactly "Customer is required" and "Product is required" |
| NewOrder.OrderForm.constructor | src/components/OrderForm.jsx:49-53 | the form opens with no customer, exactly one line (no product, quantity 1) and the opening date, and keeps these as the values it resets to |
| NewOrder.OrderForm.SelectCustomer | src/components/OrderForm.jsx:92-105 | only the customer changes |
| NewOrder.OrderForm.SelectProduct | src/components/OrderForm.jsx:123-138 | only line i's product changes |
| NewOrder.OrderForm.SetQuantity | src/components/OrderForm.jsx:153-161 | only line i's quantity changes |
| NewOrder.OrderForm.PushLine | src/components/OrderForm.jsx:186 | a blank line (no product, quantity 1) is appended |
| NewOrder.OrderForm.RemoveLine | src/components/OrderForm.jsx:169-172 | removal, offered only with more than one line, drops line i and leaves the list non-empty |
| NewOrder.OrderForm.HandleSubmit | src/components/OrderForm.jsx:55-67 | values failing the schema change nothing; on a successful create the order is appended once by `addOrder`, the store's `'orders'` entry becomes the new list and nothing else in it changes, and the form is reset to the values it opened with (date included); on failure neither the provider nor the form changes |
| ProductForm.ImageIgnored | src/pages/Product-Inv/ProdForm.jsx:6-34 | the image never decides whether the form is accepted, nor whether submit navigates |
| ProductForm.DefaultsRejected | src/pages/Product-Inv/ProdForm.jsx:22-34 | the form opens with the placeholder image; its defaults fail the schema, so submitting them does not navigate |
| ProductForm.StricterThanProductsPage | src/pages/Product-Inv/ProdForm.jsx:6-17 | values this form accepts, with an image, pass the products page's schema; a short title and description pass there but not here |

## Left out

- HTTP: requests to the remote store are not modelled; each response is a parameter. `fetchOrders` asks the server for five carts, and the model takes whatever carts response it is given.
- Concurrency: `Promise.all` fan-out, React's asynchronous state updates, and handlers that close over stale state are not modelled. For example, two `addOrder` calls before a re-render would lose one order. Each method runs to completion on the current fields.
- JSON: the browser store is a map per value type. JSON serialisation and parse failures are not modelled.
- Floating point: prices are whole cents. `toFixed(2)` rounding is not modelled, and neither is a positive price below one cent.
- Dates: a cart date is a `(year, month)` pair. Date parsing, time zones and `toISOString` are not modelled. The order form's opening date is a constructor parameter; `resetForm()` restores that same date.
- `Date.now` and `Math.random` are parameters. The random part is required to be in 1..999, matching `Math.floor(Math.random() * 999 + 1)`.
- UsersPage.UserValuesValid: it does not check the email format. Yup's `.email()` is a library regular expression that is not part of this model, so the predicate accepts more than the form does.
- ProductsPage.ProductValuesValid: it does not check the image URL format (Yup's `.url()`) for the same reason.
- ProductForm.ProductSchemaValid: it measures text length in Unicode scalar values. Yup's `.min(3)` and `.min(10)` count UTF-16 code units, so a title of two emoji passes the form but not the predicate. The products page's checks only need non-empty texts, and the users page's phone must be ASCII digits, so their lengths agree.
- NewOrder.FormLine: quantities are whole numbers. Yup's number casting of text and fractional quantities is not modelled.
- CategoryChart.Upper: it upper-cases ASCII letters only. JavaScript's `toUpperCase` also maps other scripts.
- CategoryChart.Tally: it treats every category as an ordinary key of an empty dictionary. In JavaScript `categorySales` is a plain object. A category named after an inherited property (`constructor`, `toString`) reads a function, the sum becomes a string, and `toFixed` then throws; the catch leaves the chart empty. A category `__proto__` is never listed by `Object.entries`. The model gives such a category an ordinary bucket instead.
- CategoryChart.Tally: it keeps properties in insertion order. JavaScript's `Object.entries` lists integer-like property names first; the stable sort makes this matter only among equal values.
- The page imports missing from the order service: `Products.jsx` imports `createProduct`, `updateProduct` and `deleteProduct`, but `src/services/api.js` defines none of them. The model takes their outcomes as parameters, as if they existed.
- Form libraries: Formik's touched and error display, `isSubmitting` and the rendering of errors are not modelled. `resetForm` is modelled only where it resets the order form's values.
- The hook guards `useOrders` and `useAuth`, which throw outside their providers, are not modelled.
- UsersPage.NewUser: a submitted user also carries the form's top-level `firstname`, `lastname`, `email` and `phone` fields, spread in by `...values`. The model keeps the store's user shape: id, email, name and phone.
- Order lines: product ids chosen in the order form are select values, which are text. The model reads them as integers, as the posted cart's `parseInt` does. The body of the posted cart is not modelled; only the response's `userId` enters the created order.
- The order form's own load of users and products only fills the select options, so it is not modelled.
- The users page's Edit and Delete buttons have no handlers.
- Rendering-only files are not part of this model: `Sidebar.jsx`, `Layout.jsx`, `App.jsx`, `SalesModule.jsx`, `ProdDetail.jsx`, `Dashboard.jsx` (hard-coded sample data), `OrderList.jsx` and `OrderDetails.jsx` (their totals repeat the pricing of `api.js`).
