/**
 * The product and cart endpoints of marketplace/views.py over an in-memory
 * store: the three tables and the counter that hands out cart ids. Each
 * request is one sequential step; the caller is an authenticated user id.
 */
module Views {
  import opened Wrappers
  import opened Models
  import opened Serializers
  import opened Inventory
  import PyInt

  /** The answers the views give besides success. */
  datatype Error =
    | NotFound                       // get_object_or_404: no such cart (for this user) or product
    | BadArg                         // `product_id` missing, `quantity` missing or not an integer
    | CartClosed                     // the cart is already complete
    | EmptyCart                      // checkout of a cart without items
    | ItemOutOfStock                 // purchase: the product has less stock than asked for
    | OutOfStock(products: seq<int>) // checkout: the product of every line that does not fit
    | ServerError                    // an exception the view lets escape (HTTP 500)

  datatype Result<T> = Ok(value: T) | Err(error: Error)

  predicate Distinct(s: seq<int>) {
    forall i, j | 0 <= i < j < |s| :: s[i] != s[j]
  }

  /**
   * No cart disappears or changes owner, and a complete cart stays complete:
   * the relation every operation keeps between the carts before and after it.
   */
  predicate CartsGrow(before: map<int, Cart>, after: map<int, Cart>) {
    forall c | c in before ::
      c in after && after[c].owner == before[c].owner && (before[c].complete ==> after[c].complete)
  }

  /** Over any sequence of operations the carts still only grow. */
  lemma CartsGrowTransitive(a: map<int, Cart>, b: map<int, Cart>, c: map<int, Cart>)
    requires CartsGrow(a, b) && CartsGrow(b, c)
    ensures CartsGrow(a, c)
  {
  }

  /** `a` is `b` with some elements left out, the rest in the same order. */
  ghost predicate IsSubsequence(a: seq<int>, b: seq<int>)
    decreases |b|
  {
    a == [] || (b != [] && ((a[0] == b[0] && IsSubsequence(a[1..], b[1..])) || IsSubsequence(a, b[1..])))
  }

  /** `filter(inventory_count__gt=0)` over the ids `ids`. */
  function InStock(ids: seq<int>, products: map<int, Product>): (r: seq<int>)
    requires forall i | 0 <= i < |ids| :: ids[i] in products
    ensures IsSubsequence(r, ids)
    ensures forall id :: id in r <==> id in ids && products[id].inventoryCount > 0
  {
    if ids == [] then []
    else
      var rest := InStock(ids[1..], products);
      if products[ids[0]].inventoryCount > 0 then [ids[0]] + rest else rest
  }

  /** The id column of a list of serialized products. */
  function Ids(views: seq<ProductView>): seq<int> {
    seq(|views|, i requires 0 <= i < |views| => views[i].id)
  }

  /** `ProductSerializer(queryset, many=True)` over the ids `ids`. */
  function ProductViews(ids: seq<int>, products: map<int, Product>): (r: seq<ProductView>)
    requires forall id | id in ids :: id in products
    ensures |r| == |ids|
    ensures forall i | 0 <= i < |ids| :: r[i] == ProductViewOf(ids[i], products[ids[i]])
  {
    if ids == [] then []
    else
      assert forall id | id in ids[1..] :: id in ids;
      [ProductViewOf(ids[0], products[ids[0]])] + ProductViews(ids[1..], products)
  }

  /**
   * The `quantity` argument after `int(...)`: the `try` turns both a missing
   * argument and a ValueError into None.
   */
  function ParsedQuantity(quantity: Option<string>): (r: Option<int>)
    ensures r.Some? <==> quantity.Some? && PyInt.IsSignedNumeral(PyInt.Strip(quantity.value))
    ensures r.Some? ==> r == PyInt.Parse(quantity.value)
  {
    if quantity.None? then None else PyInt.Parse(quantity.value)
  }

  /** Unique product ids listed once each, and every product satisfies its constraints. */
  predicate CatalogValid(catalog: seq<int>, products: map<int, Product>) {
    && Distinct(catalog)
    && (forall id | id in catalog :: id in products)
    && (forall id | id in products :: id in catalog && ValidProduct(products[id]))
  }

  /** Every item refers to an existing cart and product and has an admissible quantity. */
  predicate ItemsValid(items: seq<CartItem>, carts: map<int, Cart>, products: map<int, Product>) {
    && Priced(items, products)
    && (forall x | x in items :: x.cart in carts && ValidItem(x))
  }

  lemma ItemsValidAppend(items: seq<CartItem>, carts: map<int, Cart>, products: map<int, Product>, x: CartItem)
    requires ItemsValid(items, carts, products)
    requires x.cart in carts && x.product in products && ValidItem(x)
    ensures ItemsValid(items + [x], carts, products)
  {
    assert forall y | y in items + [x] :: y in items || y == x;
  }

  /** Taking the lines' stock off and closing a cart keeps the tables valid. */
  lemma CheckoutKeepsValid(catalog: seq<int>, products: map<int, Product>, carts: map<int, Cart>,
                           closed: map<int, Cart>, items: seq<CartItem>, lines: seq<CartItem>)
    requires CatalogValid(catalog, products) && ItemsValid(items, carts, products)
    requires Fits(lines, products) && closed.Keys == carts.Keys
    ensures CatalogValid(catalog, Deducted(products, lines))
    ensures ItemsValid(items, closed, Deducted(products, lines))
  {
    DeductedValid(products, lines);
  }

  /**
   * The checks of `purchase`, in the source's order: the error it answers
   * with, or the line it appends. A negative quantity passes the stock check
   * and is then refused by the quantity column; a `product_id` that is not an
   * integer makes the primary-key lookup raise.
   */
  function PurchaseLine(carts: map<int, Cart>, products: map<int, Product>, cartId: int, user: int,
                        productId: Option<string>, quantity: Option<string>): (r: Result<CartItem>)
    ensures r.Ok? <==>
      && productId.Some? && ParsedQuantity(quantity).Some?
      && cartId in carts && carts[cartId].owner == user && !carts[cartId].complete
      && PyInt.Parse(productId.value).Some? && PyInt.Parse(productId.value).value in products
      && 0 <= ParsedQuantity(quantity).value <= products[PyInt.Parse(productId.value).value].inventoryCount
    ensures r.Ok? ==>
      r.value == CartItem(cartId, PyInt.Parse(productId.value).value, ParsedQuantity(quantity).value)
    ensures r.Ok? ==> r.value.cart in carts && r.value.product in products && ValidItem(r.value)
    ensures productId.None? || ParsedQuantity(quantity).None? ==> r == Err(BadArg)
    ensures productId.Some? && ParsedQuantity(quantity).Some? && !(cartId in carts && carts[cartId].owner == user)
            ==> r == Err(NotFound)
    ensures (&& productId.Some? && ParsedQuantity(quantity).Some?
             && cartId in carts && carts[cartId].owner == user && carts[cartId].complete)
            ==> r == Err(CartClosed)
    ensures (&& productId.Some? && ParsedQuantity(quantity).Some?
             && cartId in carts && carts[cartId].owner == user && !carts[cartId].complete)
            ==> var pk := PyInt.Parse(productId.value);
                var q := ParsedQuantity(quantity).value;
                && (pk.None? ==> r == Err(ServerError))
                && (pk.Some? && pk.value !in products ==> r == Err(NotFound))
                && (pk.Some? && pk.value in products && products[pk.value].inventoryCount < q ==> r == Err(ItemOutOfStock))
                && (pk.Some? && pk.value in products && products[pk.value].inventoryCount >= q && q < 0 ==> r == Err(ServerError))
  {
    if productId.None? then Err(BadArg)
    else if ParsedQuantity(quantity).None? then Err(BadArg)
    else
      var q := ParsedQuantity(quantity).value;
      if cartId !in carts || carts[cartId].owner != user then Err(NotFound)
      else if carts[cartId].complete then Err(CartClosed)
      else
        var pk := PyInt.Parse(productId.value);
        if pk.None? then Err(ServerError)
        else if pk.value !in products then Err(NotFound)
        else if products[pk.value].inventoryCount < q then Err(ItemOutOfStock)
        else if q < 0 then Err(ServerError)
        else Ok(CartItem(cartId, pk.value, q))
  }

  class Store {
    /** Product ids in the order the product table returns them. */
    var catalog: seq<int>
    var products: map<int, Product>
    var carts: map<int, Cart>
    /** The cart item table, in insertion order. */
    var items: seq<CartItem>
    /** The id the next new cart receives. */
    var nextCartId: int

    /**
     * The constraints of models.py on every reachable state: unique ids,
     * valid products (stock never negative), fresh cart ids, and every item
     * referring to an existing cart and product with an admissible quantity.
     */
    ghost predicate Valid()
      reads this
    {
      && CatalogValid(catalog, products)
      && (forall id | id in carts :: id < nextCartId)
      && ItemsValid(items, carts, products)
    }

    /** A store holding the catalogue set up outside the core, with no carts yet. */
    constructor (catalog: seq<int>, products: map<int, Product>)
      requires CatalogValid(catalog, products)
      ensures Valid()
      ensures this.catalog == catalog && this.products == products
      ensures carts == map[] && items == []
    {
      this.catalog := catalog;
      this.products := products;
      carts := map[];
      items := [];
      nextCartId := 1;
    }

    /** The cart exists and belongs to `user` (`Cart.objects.filter(user=...)`). */
    predicate OwnedBy(cartId: int, user: int)
      reads this
    {
      cartId in carts && carts[cartId].owner == user
    }

    /**
     * `ProductViewSet.list`: with `in_stock=true` exactly the products that have
     * stock, in store order; with any other value, or none, every product.
     */
    function List(inStock: Option<string>): (r: seq<ProductView>)
      reads this
      requires Valid()
      ensures forall v | v in r :: v.id in products && v == ProductViewOf(v.id, products[v.id])
      ensures inStock != Some("true") ==> Ids(r) == catalog
      ensures inStock == Some("true") ==> IsSubsequence(Ids(r), catalog)
      ensures inStock == Some("true") ==>
        forall id :: id in Ids(r) <==> id in products && products[id].inventoryCount > 0
    {
      assert forall i | 0 <= i < |catalog| :: catalog[i] in catalog;
      var ids := if inStock == Some("true") then InStock(catalog, products) else catalog;
      var r := ProductViews(ids, products);
      assert Ids(r) == ids;
      r
    }

    /** `ProductViewSet.retrieve`: the product with that id, or not found. */
    function RetrieveProduct(id: int): (r: Result<ProductView>)
      reads this
      requires Valid()
      ensures r.Ok? <==> id in products
      ensures r.Ok? ==> r.value.id == id && r.value == ProductViewOf(id, products[id])
      ensures r.Err? ==> r.error == NotFound
    {
      if id in products then Ok(ProductViewOf(id, products[id])) else Err(NotFound)
    }

    /**
     * `CartViewSet.retrieve`: any existing cart, whoever owns it (there is no
     * user argument), with its lines and total.
     */
    function RetrieveCart(id: int): (r: Result<CartView>)
      reads this
      requires Valid()
      ensures r.Ok? <==> id in carts
      ensures r.Err? ==> r.error == NotFound
      ensures r.Ok? ==>
        && r.value.id == id
        && r.value.complete == carts[id].complete
        && r.value.items == ItemViews(CartLines(items, id), products)
        && r.value.totalPrice == CartTotal(items, products, id)
    {
      if id in carts then Ok(CartViewOf(id, carts[id], items, products)) else Err(NotFound)
    }

    /** `CartViewSet.create`: a new open, empty cart owned by `user`; nothing else changes. */
    method Create(user: int) returns (view: CartView)
      requires Valid()
      modifies this
      ensures Valid()
      ensures view.id !in old(carts)
      ensures carts == old(carts)[view.id := Cart(user, false)]
      ensures catalog == old(catalog) && products == old(products) && items == old(items)
      ensures view == CartView(view.id, [], false, 0)
      ensures CartsGrow(old(carts), carts)
    {
      var id := nextCartId;
      EmptyCartTotal(items, products, id);
      carts := carts[id := NewCart(user)];
      nextCartId := nextCartId + 1;
      var total := GetTotalPrice(items, products, id);
      view := CartView(id, ItemViews(CartLines(items, id), products), false, total);
    }

    /**
     * `CartViewSet.purchase`: append the line PurchaseLine decides on to an
     * open cart of the caller. The stock check is advisory: no product's stock
     * changes, on any path.
     */
    method Purchase(cartId: int, user: int, productId: Option<string>, quantity: Option<string>)
      returns (r: Result<CartView>)
      requires Valid()
      modifies this
      ensures Valid()
      ensures catalog == old(catalog) && products == old(products)
      ensures carts == old(carts) && nextCartId == old(nextCartId)
      ensures var d := PurchaseLine(carts, products, cartId, user, productId, quantity);
        && (d.Err? ==> r == Err(d.error) && items == old(items))
        && (d.Ok? ==>
              && items == old(items) + [d.value]
              && r.Ok? && r.value.id == cartId && !r.value.complete
              && r.value.items == ItemViews(CartLines(items, cartId), products)
              && r.value.totalPrice == old(CartTotal(items, products, cartId)) + d.value.quantity * products[d.value.product].price)
    {
      var d := PurchaseLine(carts, products, cartId, user, productId, quantity);
      if d.Err? {
        return Err(d.error);
      }
      var view := AddLine(cartId, d.value.product, d.value.quantity);
      r := Ok(view);
    }

    /**
     * `CartItem.objects.create` followed by `CartSerializer(cart).data`: the
     * line is appended and the view of the open cart returned.
     */
    method AddLine(cartId: int, pid: int, q: int) returns (view: CartView)
      requires Valid()
      requires cartId in carts && !carts[cartId].complete
      requires pid in products && q >= 0
      modifies this
      ensures Valid()
      ensures catalog == old(catalog) && products == old(products)
      ensures carts == old(carts) && nextCartId == old(nextCartId)
      ensures items == old(items) + [CartItem(cartId, pid, q)]
      ensures view.id == cartId && !view.complete
      ensures view.items == ItemViews(CartLines(items, cartId), products)
      ensures view.totalPrice == old(CartTotal(items, products, cartId)) + q * products[pid].price
    {
      var item := CartItem(cartId, pid, q);
      var grown := items + [item];
      TotalAfterAppend(items, products, item, cartId);
      ItemsValidAppend(items, carts, products, item);
      var total := GetTotalPrice(grown, products, cartId);
      view := CartView(cartId, ItemViews(CartLines(grown, cartId), products), false, total);
      items := grown;
    }

    /**
     * `CartViewSet.checkout`: a check loop collects the product of every line
     * that exceeds its product's stock; if there is none, a decrement loop
     * takes every line's quantity off its product, and the cart is completed.
     * A decrement that would leave a negative stock is refused by the
     * PositiveIntegerField constraint; that request fails and changes nothing.
     */
    method Checkout(cartId: int, user: int) returns (r: Result<()>)
      requires Valid()
      modifies this
      ensures Valid()
      ensures catalog == old(catalog) && items == old(items) && nextCartId == old(nextCartId)
      ensures CartsGrow(old(carts), carts)
      ensures r.Err? ==> products == old(products) && carts == old(carts)
      ensures
        var lines := CartLines(items, cartId);
        if !old(OwnedBy(cartId, user)) then r == Err(NotFound)
        else if old(carts[cartId].complete) then r == Err(CartClosed)
        else if lines == [] then r == Err(EmptyCart)
        else if ShortLines(lines, old(products)) != [] then r == Err(OutOfStock(ShortLines(lines, old(products))))
        else if !Fits(lines, old(products)) then r == Err(ServerError)
        else
          && r == Ok(())
          && products == Deducted(old(products), lines)
          && carts == old(carts)[cartId := Cart(user, true)]
      ensures forall c :: CartTotal(items, products, c) == old(CartTotal(items, products, c))
    {
      if cartId !in carts || carts[cartId].owner != user {
        return Err(NotFound);
      }
      if carts[cartId].complete {
        return Err(CartClosed);
      }
      var lines := CartLines(items, cartId);
      assert forall x | x in lines :: x in items;
      assert Admissible(lines);
      if lines == [] {
        return Err(EmptyCart);
      }

      var outOfStock := CheckStock(lines, products);
      if outOfStock != [] {
        return Err(OutOfStock(outOfStock));
      }
      assert CatalogValid(catalog, products);
      var taken := TakeStock(lines, products);
      if taken.None? {
        return Err(ServerError);
      }
      var stock := taken.value;
      DeductedKeepsTotals(items, products, lines);
      var closed := carts[cartId := carts[cartId].(complete := true)];
      CheckoutKeepsValid(catalog, products, carts, closed, items, lines);
      products := stock;
      carts := closed;
      r := Ok(());
    }
  }

  /**
   * One purchase of three mugs, with arguments that `int()` reads as product
   * 1 and quantity 3: it passes the per-line stock check (5 >= 3).
   */
  method BuyThreeMugs(store: Store, c: int, user: int, productId: string, quantity: string)
    requires store.Valid() && store.products == map[1 := Product("Mug", 500, 5)]
    requires store.OwnedBy(c, user) && !store.carts[c].complete
    requires PyInt.Parse(productId) == Some(1) && PyInt.Parse(quantity) == Some(3)
    modifies store
    ensures store.Valid() && store.products == old(store.products) && store.carts == old(store.carts)
    ensures store.items == old(store.items) + [CartItem(c, 1, 3)]
  {
    var carts, products := store.carts, store.products;
    assert PurchaseLine(carts, products, c, user, Some(productId), Some(quantity)) == Ok(CartItem(c, 1, 3));
    var bought := store.Purchase(c, user, Some(productId), Some(quantity));
    assert store.carts == carts && store.products == products;
  }

  /** A store selling 5 mugs, where `user` has just opened an empty cart. */
  method MugShop(user: int) returns (store: Store, c: int)
    ensures fresh(store) && store.Valid()
    ensures store.products == map[1 := Product("Mug", 500, 5)]
    ensures store.items == []
    ensures store.OwnedBy(c, user) && !store.carts[c].complete
  {
    store := new Store([1], map[1 := Product("Mug", 500, 5)]);
    var cart := store.Create(user);
    c := cart.id;
  }

  /**
   * A store selling 5 mugs, where `user` puts two lines of 3 mugs into one
   * open cart, passing arguments that `int()` reads as product 1 and
   * quantity 3.
   */
  method TwoLinesOfThree(user: int, productId: string, quantity: string) returns (store: Store, c: int)
    requires PyInt.Parse(productId) == Some(1) && PyInt.Parse(quantity) == Some(3)
    ensures fresh(store) && store.Valid()
    ensures store.products == map[1 := Product("Mug", 500, 5)]
    ensures store.items == [CartItem(c, 1, 3), CartItem(c, 1, 3)]
    ensures store.OwnedBy(c, user) && !store.carts[c].complete
  {
    store, c := MugShop(user);
    BuyThreeMugs(store, c, user, productId, quantity);
    BuyThreeMugs(store, c, user, productId, quantity);
  }

  /**
   * The checkout of that cart passes its check loop line by line, but the
   * decrement loop would store -1: it fails, the stock stays 5 and the cart
   * stays open.
   */
  method OversellScenario(user: int, productId: string, quantity: string)
    returns (outcome: Result<()>, stockLeft: int, closed: bool)
    requires PyInt.Parse(productId) == Some(1) && PyInt.Parse(quantity) == Some(3)
    ensures outcome == Err(ServerError) && stockLeft == 5 && !closed
  {
    var store, c := TwoLinesOfThree(user, productId, quantity);
    var lines := [CartItem(c, 1, 3), CartItem(c, 1, 3)];
    assert lines[..1] == [CartItem(c, 1, 3)] && lines[..1][..0] == [];
    assert CartLines(lines, c) == lines;
    LineCheckMissesOversell(c);
    outcome := store.Checkout(c, user);
    stockLeft, closed := store.products[1].inventoryCount, store.carts[c].complete;
  }
}
