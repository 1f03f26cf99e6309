# Smokey backend: cart, order and menu pricing engine in Dafny

This project models the pricing core of a restaurant storefront backend (an Express and
Mongoose service). It covers five parts:

- **Cart engine.** There is one cart per client-supplied session string. A cart supports
  get-or-create, add (which merges on `menuItemId`), update quantity, remove a line, and
  clear. Each cart carries `subtotal`, `tax` and `total`, which are recomputed from its lines
  after every mutation and again by the schema's `pre('save')` hook.
- **Order materializer.** It prices a requested item list against the catalog, all or
  nothing, into an order whose totals are frozen.
- **Order status.** The status set is closed: pending, confirmed, preparing, ready,
  completed, cancelled. An update overwrites the status with no transition check.
- **Order listing.** Orders are filtered by status and by an inclusive createdAt range,
  then listed newest first.
- **Catalog.** It has a menu item schema (validators, name trimming, defaults), the
  grouped menu listing, and the by-id admin routes.

Money is an exact `real`. The tax rate 0.02 is exactly 1/50, so the model has no
floating-point rounding.

Modules, one per source file:

- `CartModel` (`cart_model.dfy`): `models/Cart.js`. It holds the line and cart records, the
  `Subtotal` fold, the save hook as `Recompute`, and validation plus the hook as `Save`. The
  same pricing rule is used for orders.
- `CartRoutes` (`cart_routes.dfy`): `routes/cartRoutes.js`. The `CartStore` class holds the
  cart collection as a `map<string, Cart>` that its handler methods update. The line edits
  are pure functions on the line sequence, with lemmas about them.
- `OrderRoutes` (`order_routes.dfy`): `routes/orderRoutes.js`. The pricing loop is a method
  proved against a recursive specification. The `OrderStore` class holds the order
  collection.
- `MenuItemModel` (`menu_item.dfy`): `models/MenuItem.js`.
- `MenuRoutes` (`menu_routes.dfy`): `routes/menuRoutes.js`.
- `Results` and `Sorting`: shared helpers. These are the outcome datatype of the handlers,
  the sorted enumeration that a store query returns, and string collation.

Conventions:

- The catalog is a `map<string, MenuItem>` passed to the handlers that read it.
- Clock readings (`Date.now()`, `new Date()`) are `int` parameters.
- The `Math.random()` draw is a `real` parameter in [0, 1).
- A store-assigned `_id` is a parameter.
- A handler's reply is an `Outcome`:
  - `Ok` is 200 or 201;
  - `NotFound` is 404, with the optional `details` field;
  - `InvalidArgument` is 400;
  - `ValidationFailed` is a save that the schema validators rejected, which the routes
    answer with 500.
- Lines are selected for update and remove by their `menuItemId`, as the code does, not by a
  line-local `_id`.

## Model

| member | source | states |
|---|---|---|
| `CartModel.Subtotal` | models/Cart.js:54 | the reduce `Σ price×quantity` over the lines, left to right from 0; the same fold as routes/cartRoutes.js lines 24, 75, 126 and 170 |
| `CartModel.SubtotalNonNegative` | models/Cart.js:54 | lines with non-negative prices and quantities have a non-negative subtotal |
| `CartModel.ValidLine` | models/Cart.js:3-21 | a cart line needs menuItemId and name present and quantity ≥ 1 |
| `CartModel.ValidCart` | models/Cart.js:28-33 | a cart needs sessionId present and every line valid |
| `CartModel.NewCart` | routes/cartRoutes.js:16-19 | a new cart for the session has no lines and zero totals, which already agree with its lines, and passes validation exactly when the session string is non-empty |
| `CartModel.Recompute` | models/Cart.js:53-57 | the save hook leaves sessionId and lines as they were, stamps lastUpdated, and makes subtotal = Σ price×quantity, tax = subtotal×0.02 and total = subtotal+tax |
| `CartModel.RecomputeOverridesAndIsIdempotent` | models/Cart.js:53-56 | whatever totals the route stored are overridden by the hook, and running it twice equals running it once |
| `CartModel.EmptyCartTotals` | models/Cart.js:34-45 | a cart with no lines recomputes to subtotal = tax = total = 0, and a new cart's zero defaults already agree with its lines |
| `CartModel.Save` | models/Cart.js:3-57 | a save succeeds exactly when sessionId is present and every line has an id, a name and quantity ≥ 1; the saved cart has the same lines, agreeing totals and lastUpdated reset to the save time |
| `CartModel.SaveRecomputed` | routes/cartRoutes.js:75-80 | saving a cart whose totals the route already recomputed stores the same document as saving it straight away |
| `CartModel.SubtotalConcat` | models/Cart.js:54 | the reduce over two runs of lines is the sum of their subtotals |
| `CartModel.SubtotalReplace` | models/Cart.js:54 | replacing one line moves the subtotal by the difference between the old and the new line amounts |
| `CartModel.SubtotalDrop` | models/Cart.js:54 | dropping one line lowers the subtotal by that line's amount |
| `CartRoutes.FindLine` | routes/cartRoutes.js:57-59 | findIndex by menuItemId: -1 exactly when no line has the id, otherwise the first line that has it |
| `CartRoutes.WithoutLine` | routes/cartRoutes.js:155-158 | the filter keeps no line with the id, and the length is unchanged exactly when no line had it |
| `CartRoutes.WithoutLineContents` | routes/cartRoutes.js:155-158 | the filter keeps every line without the id as often as it occurs, and no other line |
| `CartRoutes.RequestedQuantityDefault` | routes/cartRoutes.js:42 | an omitted quantity is 1; a given one is taken as it is, with no check of its value |
| `CartRoutes.AddToLines` | routes/cartRoutes.js:56-72 | the add's line edit: one line more exactly when no line had the id, one line fewer never, and afterwards some line has the id |
| `CartRoutes.MergeLine` | routes/cartRoutes.js:56-72 | the handler's `quantity +=` or `push` computes exactly the edit AddToLines specifies |
| `CartRoutes.AddMergesExisting` | routes/cartRoutes.js:57-63 | adding an id that a line already has grows that line's quantity by the request, keeps its snapshot name and price, adds no line and leaves every other line alone |
| `CartRoutes.AddAppendsNew` | routes/cartRoutes.js:64-71 | adding a new id appends exactly one line with the catalog item's current name and price and the requested quantity, with the earlier lines untouched |
| `CartRoutes.AddKeepsUnique` | routes/cartRoutes.js:56-72 | an add keeps "no two lines share a menuItemId" |
| `CartRoutes.AddSubtotalMerged` | routes/cartRoutes.js:61-77 | a merge raises the subtotal by the requested quantity at the line's snapshot price, not the catalog's current price |
| `CartRoutes.AddSubtotalAppended` | routes/cartRoutes.js:64-77 | a new line raises the subtotal by catalog price × requested quantity |
| `CartRoutes.AddTwiceMerges` | routes/cartRoutes.js:56-72 | two adds of the same new id with q1 and q2 leave one line of quantity q1+q2 |
| `CartRoutes.AddTwiceScenario` | routes/cartRoutes.js:56-77 | with a 10.00 item, adding 2 gives 20.00/0.40/20.40; adding 1 more gives one line of 3 and 30.00/0.60/30.60 |
| `CartRoutes.AddBelowOneRejected` | models/Cart.js:17-21 | an add or merge that leaves the line below quantity 1 produces a cart the save rejects |
| `CartRoutes.AddAtLeastOneAccepted` | models/Cart.js:3-33 | conversely, on a stored cart, an add of a named item under a non-empty id whose line ends at quantity ≥ 1 produces a cart the save accepts |
| `CartRoutes.AddKeepsStored` | routes/cartRoutes.js:51-80 | what a successful add saves keeps the store invariant: valid, totals agree, ids unique |
| `CartRoutes.UpdateOnlyMatchedLine` | routes/cartRoutes.js:122-128 | setting line i's quantity changes only that quantity; line count, order, other lines and uniqueness are kept; the subtotal moves by the difference of that line's amounts |
| `CartRoutes.WithoutAbsentLine` | routes/cartRoutes.js:155-162 | filtering out an id that no line has changes nothing, which is the 404 case |
| `CartRoutes.WithoutUniqueLine` | routes/cartRoutes.js:155-158 | when ids are unique, the filter removes exactly the matched line and keeps the others in order |
| `CartRoutes.RemoveUnique` | routes/cartRoutes.js:154-172 | when ids are unique, removal drops the length by exactly one, lowers the subtotal by the removed line's amount and keeps ids unique |
| `CartRoutes.RemovingLastLineZeroes` | routes/cartRoutes.js:169-172 | removing the only line leaves no lines and subtotal = tax = total = 0 |
| `CartRoutes.RemoveKeepsStored` | routes/cartRoutes.js:154-175 | what a successful remove saves keeps the store invariant |
| `CartRoutes.CartStore.GetOrCreate` | routes/cartRoutes.js:7-29 | an existing cart is returned with its totals recomputed and is not re-saved; an absent one is created empty with zero totals and saved at once; an empty session string fails the save |
| `CartRoutes.CartStore.AddItem` | routes/cartRoutes.js:37-85 | an unknown menu item gives NotFound and no change, with no `active` check; otherwise the session's cart, or a new one, gets the line merged or appended with quantity defaulting to 1, and is saved recomputed unless a line falls below 1 |
| `CartRoutes.CartStore.UpdateQuantity` | routes/cartRoutes.js:93-134 | a missing or < 1 quantity gives InvalidArgument before any lookup; a missing cart or line gives NotFound; otherwise only the matched line's quantity changes and the cart is saved recomputed |
| `CartRoutes.CartStore.RemoveItem` | routes/cartRoutes.js:142-179 | a missing cart gives NotFound; if the filter removes nothing, NotFound with details naming the searched id; otherwise the filtered cart is saved recomputed |
| `CartRoutes.CartStore.Clear` | routes/cartRoutes.js:187-204 | a missing cart gives NotFound; otherwise the cart stays under its session with no lines, zero totals and a new lastUpdated |
| `OrderRoutes.ParseStatus` | routes/orderRoutes.js:119-121 | a status is accepted exactly when it is one of the six names, and maps back to that name |
| `OrderRoutes.ParseStatusName` | routes/orderRoutes.js:119 | each of the six statuses is accepted under its own name |
| `OrderRoutes.OrderLine` | routes/orderRoutes.js:28-33 | the pushed order line is priced at catalog price × requested quantity |
| `OrderRoutes.PriceAll` | routes/orderRoutes.js:21-33 | all ids resolve: one line per requested item in request order, no merging, catalog name/price and requested quantity; otherwise the first unresolvable id is returned |
| `OrderRoutes.MissingStays` | routes/orderRoutes.js:21-26 | once an id fails to resolve, later items do not change the outcome |
| `OrderRoutes.PriceItems` | routes/orderRoutes.js:17-36 | the loop with its early return computes the same result as PriceAll, and its running sum is the subtotal of the lines |
| `OrderRoutes.PricedSubtotal` | routes/orderRoutes.js:35-39 | an order's subtotal is Σ catalog price × requested quantity over the request |
| `OrderRoutes.OrderNumber` | routes/orderRoutes.js:42 | an order number starts with "ORD-" and is at least seven characters long: the prefix, at least one timestamp digit, the dash and at least one suffix digit |
| `OrderRoutes.NatToStringValue` | routes/orderRoutes.js:42 | the decimal text of a number reads back as that number |
| `OrderRoutes.RandomSuffix` | routes/orderRoutes.js:42 | Math.floor(random×1000) lies in 0..999 for a draw in [0, 1) |
| `OrderRoutes.OrderNumberRoundTrip` | routes/orderRoutes.js:42 | "ORD-" + timestamp + "-" + suffix parses back to the timestamp and the suffix |
| `OrderRoutes.OrderNumberInjective` | routes/orderRoutes.js:42 | distinct (timestamp, suffix) pairs give distinct order numbers |
| `OrderRoutes.NewOrder` | routes/orderRoutes.js:38-52 | a new order is pending, holds the given id, the priced lines, the customer info, its creation time and the order number "ORD-" + timestamp + "-" + suffix, and has subtotal = Σ lines, tax = subtotal×0.02, total = subtotal+tax |
| `OrderRoutes.PlaceOrderScenario` | routes/orderRoutes.js:17-52 | 2 of a 10.00 item price to 20.00/0.40/20.40, status pending |
| `OrderRoutes.BuildQuery` | routes/orderRoutes.js:70-85 | the status filter is set only for a given non-empty status, and the createdAt range only when a start or an end date is given |
| `OrderRoutes.QueryMeaning` | routes/orderRoutes.js:73-87 | an order is selected exactly when it has the given status (if any), and its createdAt is ≥ startDate and ≤ endDate (each if given) |
| `OrderRoutes.OrderStore.PlaceOrder` | routes/orderRoutes.js:8-60 | missing or empty items give InvalidArgument; the first unresolvable id gives NotFound naming it; in both cases nothing is stored; otherwise exactly the new priced pending order is stored |
| `OrderRoutes.OrderStore.Find` | routes/orderRoutes.js:99-108 | the stored order, or NotFound when the id is absent |
| `OrderRoutes.OrderStore.UpdateStatus` | routes/orderRoutes.js:116-135 | a status outside the six gives InvalidArgument with the order unchanged; a missing id gives NotFound; otherwise only the status is overwritten, from any status |
| `OrderRoutes.OrderStore.ListOrders` | routes/orderRoutes.js:68-91 | for a store keyed by order id, the result holds each selected order once and no other, sorted createdAt descending |
| `MenuItemModel.Trim` | models/MenuItem.js:7 | the `trim` setter: the result is no longer than the input and neither starts nor ends with white space |
| `MenuItemModel.ValidMenuItem` | models/MenuItem.js:3-26 | a stored item has a trimmed non-empty name, a description and a serving, price ≥ 0 and a category in the enum |
| `MenuItemModel.ApplyFields` | routes/menuRoutes.js:60-64 | an update body, createdAt included when it carries one, written over a stored item |
| `MenuItemModel.ApplyFieldsWrites` | routes/menuRoutes.js:60-64 | the update writes exactly the fields the body carries, with the name trimmed, createdAt included when the body gives one, and keeps every other field and the id |
| `MenuItemModel.TrimCutsOnlySpaces` | models/MenuItem.js:4-8 | the trimmed name is the run of the input between leading and trailing white space, and starts and ends with a non-space |
| `MenuItemModel.TrimIdempotent` | models/MenuItem.js:4-8 | trimming a stored name again changes nothing |
| `MenuItemModel.NewMenuItem` | models/MenuItem.js:3-47 | a document exists exactly when name, description, serving, price and category are given and pass their validators; it then holds the body's fields (name trimmed), the defaults for omitted flags and image, the given id, the body's createdAt or else the clock reading, and is valid: price ≥ 0, category in the enum, name non-empty |
| `MenuItemModel.NewMenuItemDefaults` | models/MenuItem.js:27-46 | the defaults are popular = false, spicy = false, active = true, image = "" and createdAt = the clock reading |
| `MenuItemModel.ApplyFieldsKeepsValid` | routes/menuRoutes.js:60-64 | an update that passes the update validators keeps a valid item valid, with the same id, and keeps createdAt unless the body gives one |
| `MenuRoutes.BuildMenuQuery` | routes/menuRoutes.js:8-13 | the listing query always requires active, and filters by category only when one is given |
| `MenuRoutes.ListingFilter` | routes/menuRoutes.js:9-13 | an item is listed exactly when it is active and, if a category is given, is of that category |
| `MenuRoutes.CategoryThenNameIsTotalPreorder` | routes/menuRoutes.js:15 | the (category, name) sort key is total and transitive |
| `Sorting.SortSet` | routes/menuRoutes.js:15 | the store's sorted find lists every selected document exactly once, in key order |
| `MenuRoutes.InCategory` | routes/menuRoutes.js:19-21 | a bucket filter keeps exactly the items of its category, each as often as in the input |
| `MenuRoutes.GroupMenu` | routes/menuRoutes.js:18-22 | each of the three buckets holds only items of its own category |
| `MenuRoutes.InCategorySorted` | routes/menuRoutes.js:18-22 | filtering keeps the order of what it keeps |
| `MenuRoutes.OneCategorySortedByName` | routes/menuRoutes.js:15-22 | within one category the (category, name) order is the name order |
| `MenuRoutes.GroupedBucket` | routes/menuRoutes.js:15-22 | each bucket of a sorted listing holds exactly the listed items of its category, sorted by name |
| `MenuRoutes.ListMenu` | routes/menuRoutes.js:6-24 | for a catalog keyed by item id, smokedMeats, sides and sandwiches each hold exactly the active items (of the requested category, if any) of their category, each once, sorted by name |
| `MenuRoutes.GetMenuItem` | routes/menuRoutes.js:32-43 | the item by id whatever its `active` flag, or NotFound |
| `MenuRoutes.CreateMenuItem` | routes/menuRoutes.js:46-55 | under a fresh id, the item is stored exactly when the body passes the schema, and what is stored and returned is the document built from the body; otherwise 400 and the catalog is unchanged |
| `MenuRoutes.UpdateMenuItem` | routes/menuRoutes.js:58-73 | a body failing the update validators gives 400; an absent id gives NotFound; otherwise the stored and returned item is the old one with the body's fields (createdAt included) written, and a valid item stays valid |
| `MenuRoutes.DeleteMenuItem` | routes/menuRoutes.js:76-87 | an absent id gives NotFound; otherwise exactly that item is removed and the others are kept |

## Left out

- HTTP routing, `console.log` tracing, and the `populate` calls. The populate calls only
  decorate responses with catalog fields.
- The debug route (routes/cartRoutes.js:212-237). It is a field projection.
- Server bootstrap, CORS, the database connection and the health and test-reset endpoints
  in server.js. The seed script. These are I/O and configuration.
- Store failures and the exceptions the handlers catch are not modelled. Stores are maps that
  always answer. Most handlers answer such an exception with 500. The menu create and update
  handlers answer it with 400 (routes/menuRoutes.js:51-54, 69-72), for example for a
  malformed id on PUT or a duplicate `_id` on POST. Those 400 replies are not modelled:
  `UpdateMenuItem` answers NotFound for any id that is not a key of the catalog.
- `CartRoutes.CartStore.AddItem`: ids are assumed to be in the lower-case hexadecimal form that
  `toString()` gives an ObjectId. The store's id lookup also accepts upper-case hex digits,
  but the merge test compares strings exactly. An upper-case spelling of an id already in
  the cart therefore appends a second line for the same item in the source, and a later
  remove drops both. That case-insensitive lookup and the duplicate line are not modelled.
  Here the lookup is exact, so that spelling answers NotFound.
- `MenuRoutes.CreateMenuItem`: it requires an id that is not yet in the catalog, since the
  store assigns a fresh `_id`. A client-supplied duplicate `_id` answers 400 in the source
  and is not modelled.
- Concurrent requests on one session. Every handler runs as one atomic step, so
  last-writer-wins races are not modelled.
- JavaScript number semantics. Prices are exact reals and quantities are integers, so
  floating-point rounding of `0.02`, non-integer quantities and non-numeric request values
  are not modelled.
- The order schema, which is not part of this model. No constraint is assumed for order
  documents. The order's save is assumed to succeed. Its createdAt is taken to be the clock
  reading of the request that placed it.
- `addedAt` on cart lines. It is a timestamp default with nothing derived from it.
- `OrderRoutes.OrderStore.ListOrders`: it does not fix the order of orders with equal
  createdAt, because the store's sort promises none.
- `MenuRoutes.ListMenu`: it does not fix the order of items with equal category and name,
  for the same reason.
- Date parsing of `startDate`/`endDate`. The bounds arrive as already-parsed integer
  timestamps.
