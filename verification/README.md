# Marketplace cart and checkout, modelled in Dafny

This project models the cart-and-checkout core of a small Django shop. The
core is the product and cart endpoints of `marketplace/views.py`, the three
tables of `marketplace/models.py` and the cart total of
`marketplace/serializers.py`. Everything runs over one in-memory store:

- products: a map from id to title, price and stock (`inventory_count`);
- carts: a map from id to owner and `complete` flag;
- cart items: a sequence of (cart, product, quantity) lines in insertion order.

Each request is one sequential step on that store. The caller is an
authenticated user id.

Files:

- `models.dfy` (module `Models`): the Product, Cart and CartItem rows, plus
  the field constraints as predicates.
- `serializers.dfy` (module `Serializers`): the product, item and cart views,
  and the cart total. The total is a recursive sum, and `GetTotalPrice` is
  the loop that computes it, proved equal to that sum.
- `inventory.dfy` (module `Inventory`): the two loops of checkout.
  - `CheckStock` collects the product of every line that exceeds its
    product's stock.
  - `TakeStock` takes every line's quantity off its product.
  - Both are specified by `ShortLines`, `Demand`, `Fits` and `Deducted`.
- `pyint.dfy` (module `PyInt`): Python's `int(text)`, which `purchase`
  applies to `quantity`. The integer primary-key lookup applies it to
  `product_id`.
- `views.dfy` (module `Views`): the error taxonomy and the class `Store`.
  - `List`, `RetrieveProduct` and `RetrieveCart` are functions.
  - `Create`, `Purchase` and `Checkout` are methods. They keep the invariant
    `Valid()`: unique product ids, stock never negative, fresh cart ids, and
    every item referring to an existing cart and product with a quantity of
    at least 0.
  - The file ends with client code: two purchases of 3 on a stock of 5,
    then a checkout.
- `wrappers.dfy`: `Option`.

## The oversell gap

Checkout's check loop (views.py:177-179) compares each line with its
product's stock separately. A cart with two lines of 3 for a product with 5
in stock passes it. The decrement loop (views.py:184-187) then works on one
shared product instance per id, so the two decrements add up and would store
-1. The `PositiveIntegerField` (models.py:8) refuses that save, and the
request fails with a server error.

The model keeps this gap:

- `Checkout` succeeds exactly when the check loop reports nothing and the
  summed demand of every product fits its stock (`Fits`).
- When only the summed demand is too large, `Checkout` answers
  `Err(ServerError)`.
- `FitsPassesLineCheck` proves that a fitting demand passes the check loop.
- `LineCheckMissesOversell` and `OversellScenario` prove that the converse
  fails.

## Behaviour worth noting

Some of these differ from what the docstrings of `views.py` suggest:

- **Quantity 0.** A quantity of 0 is accepted. The quantity is a
  `PositiveIntegerField`, which admits 0.
- **Negative quantity.** A negative quantity passes the stock check. The
  item insert then fails, which is modelled as `ServerError`, not as a bad
  argument.
- **Price.** The price has no sign constraint. It is a `FloatField`.
- **Order of checks in purchase.** Purchase checks its arguments before it
  looks up the cart.
- **Product id.** A `product_id` that is not an integer fails at the product
  lookup (`ServerError`).
- **Cart retrieve.** Retrieving a cart does not check its owner.
- **Checkout's out-of-stock answer.** It is the list of offending product
  ids in line order, duplicates kept.
- **Atomicity.** Checkout is not one atomic reserve-all. It checks per line,
  then decrements, as described above.

## Model

| member | source | states |
|---|---|---|
| Views.Store.constructor | shopify_challenge/marketplace/models.py:5-19 | a store over a valid catalogue starts valid, with no carts and no items |
| Views.Store.List | shopify_challenge/marketplace/views.py:52-57 | every entry is the serialized product of its id; with `in_stock` other than "true" (or absent) the ids are the whole catalogue in store order; with "true" they are a subsequence of the catalogue holding exactly the products with stock > 0 |
| Views.InStock | shopify_challenge/marketplace/views.py:53-54 | the filter keeps store order (a subsequence) and keeps an id exactly when its stock is positive |
| Views.ProductViews | shopify_challenge/marketplace/views.py:56 | one serialized product per id, in the same order, with the id, title, price and stock fields |
| Views.Store.RetrieveProduct | shopify_challenge/marketplace/views.py:70-72 | succeeds exactly when the id exists, with that product's view; otherwise NotFound |
| Views.Store.Create | shopify_challenge/marketplace/views.py:93-94 | adds exactly one cart, under an id not used before, owned by the caller and not complete; products and items unchanged; the view is that id with no items, not complete, total 0 |
| Views.Store.RetrieveCart | shopify_challenge/marketplace/views.py:104-105 | succeeds exactly when the cart exists, for any caller; the view carries its id, its completion flag, its total, and the item views of its lines in order (each the full serialized product and the quantity); otherwise NotFound |
| Views.PurchaseLine | shopify_challenge/marketplace/views.py:128-149 | a line is appended exactly when both arguments are present, the quantity parses, the cart exists, is the caller's and is open, the product id parses to an existing product and 0 <= quantity <= stock; the line is (cart, product, quantity); otherwise, checked in the source's order: a missing `product_id` or a missing or unparsable quantity is BadArg, a missing or foreign cart NotFound, a closed cart CartClosed, a non-integer `product_id` ServerError, an unknown product NotFound, stock below the quantity ItemOutOfStock, and a negative quantity that passed the stock check ServerError |
| Views.Store.Purchase | shopify_challenge/marketplace/views.py:128-149 | on every error nothing changes; on success exactly the decided line is appended and the view is the open cart with its lines and a total raised by quantity * price; no product and no cart changes on any path |
| Views.Store.AddLine | shopify_challenge/marketplace/views.py:146-147 | appends exactly one item and returns the open cart's view whose total is the old total plus quantity * price |
| Views.Store.Checkout | shopify_challenge/marketplace/views.py:164-192 | answers in the source's order NotFound, CartClosed, EmptyCart, OutOfStock(ids of the short lines), ServerError (the summed demand exceeds some stock), Ok; every error changes nothing; Ok takes each product's summed demand off its stock and completes only that cart; carts only grow and no total changes |
| Views.CartsGrowTransitive | shopify_challenge/marketplace/views.py:189-190 | over several operations no cart disappears, changes owner or is reopened |
| Views.ItemsValidAppend | shopify_challenge/marketplace/models.py:16-19 | appending an item with an existing cart and product and a quantity >= 0 keeps every item's references valid |
| Views.CheckoutKeepsValid | shopify_challenge/marketplace/views.py:184-190 | when the demand fits, decrementing and closing a cart keeps the catalogue valid (stock >= 0) and every item's references valid |
| Views.BuyThreeMugs | shopify_challenge/marketplace/views.py:145-147 | a purchase of 3 when 5 are in stock appends the line and changes no stock |
| Views.MugShop | shopify_challenge/marketplace/views.py:93 | a store selling 5 mugs in which the user has just opened an empty cart, open and owned by that user |
| Views.TwoLinesOfThree | shopify_challenge/marketplace/views.py:145-147 | two such purchases leave two lines of 3 in one open cart and the stock at 5 |
| Views.OversellScenario | shopify_challenge/marketplace/views.py:177-187 | the checkout of that cart fails with ServerError, and the cart stays open |
| Inventory.ShortLinesReport | shopify_challenge/marketplace/views.py:177-179 | an id is reported exactly when some line of that product asks for more than its stock; the report is empty exactly when every line fits on its own |
| Inventory.CheckStock | shopify_challenge/marketplace/views.py:177-179 | the check loop returns exactly the short-line report, in line order with duplicates |
| Inventory.TakeStock | shopify_challenge/marketplace/views.py:184-187 | succeeds exactly when every product's summed demand fits its stock, and then returns the products with the summed demands taken off |
| Inventory.DeductedStep | shopify_challenge/marketplace/views.py:184-187 | one more decrement changes only that line's product, and only by that line's quantity, so decrements of one product accumulate |
| Inventory.FitsPassesLineCheck | shopify_challenge/marketplace/views.py:177-187 | when the summed demand fits, the check loop reports nothing |
| Inventory.LineCheckMissesOversell | shopify_challenge/marketplace/views.py:177-187 | two lines of 3 on a stock of 5 pass the check loop, but the demand does not fit and the decrement would leave -1 |
| Inventory.DeductedValid | shopify_challenge/marketplace/models.py:8 | when the demand fits, every product stays valid: stock stays >= 0 |
| Inventory.DeductedUntouched | shopify_challenge/marketplace/views.py:184-187 | the decrement changes no title or price, and leaves every product no line mentions unchanged |
| Inventory.DeductedKeepsTotals | shopify_challenge/marketplace/serializers.py:53-54 | taking stock off changes no cart's total |
| Inventory.DemandNonNegative | shopify_challenge/marketplace/models.py:19 | with quantities >= 0 the summed demand of a product is >= 0 |
| Inventory.LineWithinDemand | shopify_challenge/marketplace/models.py:19 | with quantities >= 0 one line never asks for more than all lines of its product together |
| Serializers.CartLines | shopify_challenge/marketplace/serializers.py:44 | the lines of a cart are exactly the items belonging to it, and there are no more of them than items |
| Serializers.CartLinesCount | shopify_challenge/marketplace/serializers.py:44 | each item of the cart occurs among its lines exactly as often as in the item table, so two identical lines stay two; items of other carts do not occur |
| Serializers.CartLinesConcat | shopify_challenge/marketplace/serializers.py:44 | the lines of a cart over two stretches of the item table are the lines of each stretch, in order |
| Serializers.ItemViews | shopify_challenge/marketplace/serializers.py:32-37 | one item view per line, in the same order, holding the serialized product and the quantity |
| Serializers.GetTotalPrice | shopify_challenge/marketplace/serializers.py:51-56 | the loop's total is the sum of quantity * price over exactly the cart's items |
| Serializers.EmptyCartTotal | shopify_challenge/marketplace/serializers.py:52-56 | a cart with no items has no lines and a total of 0 |
| Serializers.LinesTotalConcat | shopify_challenge/marketplace/serializers.py:53-54 | the total over two sequences of lines is the sum of their totals |
| Serializers.TotalSplit | shopify_challenge/marketplace/serializers.py:53-54 | a cart's total over two stretches is the sum, and items of other carts add nothing |
| Serializers.TotalAfterAppend | shopify_challenge/marketplace/serializers.py:53-54 | appending an item raises its own cart's total by quantity * price and no other cart's total |
| Serializers.TotalUsesOnlyPrices | shopify_challenge/marketplace/serializers.py:53-54 | the total depends only on the products' prices |
| Serializers.TotalIgnoresOrder | shopify_challenge/marketplace/serializers.py:53-54 | lines that are a permutation of each other have the same total |
| PyInt.Parse | shopify_challenge/marketplace/views.py:133-136 | `int(text)` accepts the text exactly when, without its surrounding whitespace, it is an optional sign followed by one or more digits; the same parse serves `product_id` at views.py:143 |
| PyInt.ParseSigned | shopify_challenge/marketplace/views.py:134 | a stripped text is accepted exactly when it is a signed numeral, and its value is the digits' decimal value, negated after a '-' |
| Views.ParsedQuantity | shopify_challenge/marketplace/views.py:133-136 | a quantity is obtained exactly when the argument is present and parses; a missing argument and a ValueError both give none |
| PyInt.StripStart | shopify_challenge/marketplace/views.py:134 | drops exactly the leading whitespace: the result is a suffix and starts with no whitespace |
| PyInt.StripEnd | shopify_challenge/marketplace/views.py:134 | drops exactly the trailing whitespace: the result is a prefix and ends with no whitespace |
| PyInt.ParseShow | shopify_challenge/marketplace/views.py:134 | the decimal text of any integer parses back to it |
| PyInt.ParseNumeral | shopify_challenge/marketplace/views.py:134 | a bare run of digits parses to its decimal value |
| PyInt.ParseNeedsDigit | shopify_challenge/marketplace/views.py:134 | text without a digit (empty, blank, a lone sign, a word) is refused |
| PyInt.ParsePadded | shopify_challenge/marketplace/views.py:134 | whitespace around the text does not change the result |

## Left out

- Registration, login and tokens (views.py:15-37, serializers.py:13-29) are
  not modelled. The owner is an opaque integer user id.
- URL routing (`shopify_challenge/urls.py`) is not modelled.
- HTTP responses, status codes and message texts are not modelled. Each
  answer is a `Result` variant. The argument errors of `purchase`, which the
  source sends with status 200, are `BadArg` like the rest.
- Concurrency is not modelled, including the races flagged at views.py:145
  and views.py:170. Each request is one sequential step.
- Prices are integer cents, not floats. There is no floating-point rounding
  in the total.
- Views.Store.Checkout: when a decrement is refused part-way through the
  loop, the source has already saved the earlier decrements and leaves them
  in place. The model changes nothing, as if the request were one
  transaction. So in `OversellScenario` the source would keep the first
  decrement (stock 2).
- Views.OversellScenario: its final stock of 5 follows from the single-step
  reading of `Checkout` above. The source would leave 2.
- Views.PurchaseLine: it takes `product_id` and `quantity` only as text.
  JSON numbers are not modelled. The source also accepts them: `int(3.7)`
  gives 3, and an integer `product_id` needs no parsing.
- PyInt.Parse: underscores between digits, non-ASCII digits and non-ASCII
  whitespace, which Python's `int()` also accepts, are not modelled.
- Cart and product ids from the URL are taken as integers. The router
  passes any key without a slash or dot through to the view. A non-numeric
  key then makes the primary-key lookup raise, and the source answers with
  a server error (views.py:70, 104, 138, 164). The model does not model that
  answer.
- Integers are unbounded. The database's 32-bit integer columns are not
  modelled.
- Creating and editing products is done by catalogue management outside
  the core. The constructor takes the catalogue as given, in the order the
  product table returns it.
- Cart ids come from a counter that stands for the database's
  auto-increment. No id is reused.
- ORM mechanics are abstracted to map and sequence updates:
  `get_object_or_404`, `prefetch_related` (one product instance per id, so
  decrements accumulate), indexes and `.save()`.
