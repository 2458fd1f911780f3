/**
 * What the serializers of marketplace/serializers.py expose, and the cart
 * total that CartSerializer derives on every read.
 */
module Serializers {
  import opened Models

  /** ProductSerializer: fields id, title, price, inventory_count. */
  datatype ProductView = ProductView(id: int, title: string, price: int, inventoryCount: int)

  /** CartItemSerializer: the nested product and the quantity. */
  datatype ItemView = ItemView(product: ProductView, quantity: int)

  /** CartSerializer: fields id, items, complete, total_price. */
  datatype CartView = CartView(id: int, items: seq<ItemView>, complete: bool, totalPrice: int)

  function ProductViewOf(id: int, p: Product): ProductView {
    ProductView(id, p.title, p.price, p.inventoryCount)
  }

  /** Every line refers to a product of the catalogue (the foreign key holds). */
  predicate Priced(lines: seq<CartItem>, products: map<int, Product>) {
    forall x | x in lines :: x.product in products
  }

  /** `cart.cartitem_set.all()`: the items of cart `c`, in store order. */
  function CartLines(items: seq<CartItem>, c: int): (r: seq<CartItem>)
    ensures |r| <= |items|
    ensures forall x :: x in r <==> x in items && x.cart == c
  {
    if items == [] then []
    else
      var last := items[|items| - 1];
      CartLines(items[..|items| - 1], c) + (if last.cart == c then [last] else [])
  }

  /** The serialized items of a cart, one per line, in the same order. */
  function ItemViews(lines: seq<CartItem>, products: map<int, Product>): (r: seq<ItemView>)
    requires Priced(lines, products)
    ensures |r| == |lines|
    ensures forall i | 0 <= i < |lines| ::
      r[i] == ItemView(ProductViewOf(lines[i].product, products[lines[i].product]), lines[i].quantity)
  {
    if lines == [] then []
    else
      var last := lines[|lines| - 1];
      ItemViews(lines[..|lines| - 1], products)
        + [ItemView(ProductViewOf(last.product, products[last.product]), last.quantity)]
  }

  /** Sum of quantity * price over `lines`. */
  function LinesTotal(lines: seq<CartItem>, products: map<int, Product>): int
    requires Priced(lines, products)
  {
    if lines == [] then 0
    else
      var last := lines[|lines| - 1];
      LinesTotal(lines[..|lines| - 1], products) + last.quantity * products[last.product].price
  }

  /** `get_total_price`: the total of the items that belong to cart `c`. */
  function CartTotal(items: seq<CartItem>, products: map<int, Product>, c: int): int
    requires Priced(items, products)
  {
    LinesTotal(CartLines(items, c), products)
  }

  /** `CartSerializer(cart).data` for cart `id`. */
  function CartViewOf(id: int, cart: Cart, items: seq<CartItem>, products: map<int, Product>): CartView
    requires Priced(items, products)
  {
    CartView(id, ItemViews(CartLines(items, id), products), cart.complete, CartTotal(items, products, id))
  }

  /** `get_total_price` as the source computes it: one pass over the cart's items. */
  method GetTotalPrice(items: seq<CartItem>, products: map<int, Product>, c: int) returns (total: int)
    requires Priced(items, products)
    ensures total == CartTotal(items, products, c)
  {
    var lines := CartLines(items, c);
    total := 0;
    for i := 0 to |lines|
      invariant total == LinesTotal(lines[..i], products)
    {
      assert lines[..i + 1][..i] == lines[..i];
      total := total + lines[i].quantity * products[lines[i].product].price;
    }
    assert lines[..|lines|] == lines;
  }

  // ----- Properties of the total -----

  /** A cart none of whose items exist (a new cart) has no lines and a total of 0. */
  lemma EmptyCartTotal(items: seq<CartItem>, products: map<int, Product>, c: int)
    requires Priced(items, products)
    requires forall x | x in items :: x.cart != c
    ensures CartLines(items, c) == []
    ensures CartTotal(items, products, c) == 0
  {
  }

  /** A cart's lines keep every item of that cart as often as it occurs, and no other item. */
  lemma {:induction false} CartLinesCount(items: seq<CartItem>, c: int)
    ensures forall x :: multiset(CartLines(items, c))[x] == (if x.cart == c then multiset(items)[x] else 0)
  {
    if items != [] {
      var n := |items| - 1;
      CartLinesCount(items[..n], c);
      assert items == items[..n] + [items[n]];
    }
  }

  /** Filtering distributes over concatenation. */
  lemma {:induction false} CartLinesConcat(a: seq<CartItem>, b: seq<CartItem>, c: int)
    ensures CartLines(a + b, c) == CartLines(a, c) + CartLines(b, c)
    decreases |b|
  {
    if b == [] {
      assert a + b == a;
    } else {
      var b' := b[..|b| - 1];
      assert (a + b)[..|a + b| - 1] == a + b';
      CartLinesConcat(a, b', c);
    }
  }

  /** The total of a concatenation is the sum of the totals. */
  lemma {:induction false} LinesTotalConcat(a: seq<CartItem>, b: seq<CartItem>, products: map<int, Product>)
    requires Priced(a, products) && Priced(b, products)
    ensures Priced(a + b, products)
    ensures LinesTotal(a + b, products) == LinesTotal(a, products) + LinesTotal(b, products)
    decreases |b|
  {
    if b == [] {
      assert a + b == a;
    } else {
      var b' := b[..|b| - 1];
      assert (a + b)[..|a + b| - 1] == a + b';
      LinesTotalConcat(a, b', products);
    }
  }

  /**
   * The total of a cart over two stretches of the item table is the sum of
   * the two stretches' totals, and a stretch holding no item of the cart adds
   * nothing: only the cart's own items contribute.
   */
  lemma TotalSplit(a: seq<CartItem>, b: seq<CartItem>, products: map<int, Product>, c: int)
    requires Priced(a, products) && Priced(b, products)
    ensures Priced(a + b, products)
    ensures CartTotal(a + b, products, c) == CartTotal(a, products, c) + CartTotal(b, products, c)
    ensures (forall x | x in b :: x.cart != c) ==> CartTotal(a + b, products, c) == CartTotal(a, products, c)
  {
    CartLinesConcat(a, b, c);
    LinesTotalConcat(CartLines(a, c), CartLines(b, c), products);
    if forall x | x in b :: x.cart != c {
      EmptyCartTotal(b, products, c);
    }
  }

  /** Appending an item raises its own cart's total by quantity * price and no other cart's. */
  lemma TotalAfterAppend(items: seq<CartItem>, products: map<int, Product>, x: CartItem, c: int)
    requires Priced(items, products) && x.product in products
    ensures Priced(items + [x], products)
    ensures CartTotal(items + [x], products, c)
         == CartTotal(items, products, c) + (if x.cart == c then x.quantity * products[x.product].price else 0)
  {
    TotalSplit(items, [x], products, c);
    var r := CartLines([x], c);
    assert [x][..0] == [];
    if x.cart == c {
      assert r == [x];
      assert r[..0] == [];
    } else {
      assert r == [];
    }
  }

  /** The total depends only on the prices: stock, titles and other fields do not enter it. */
  lemma {:induction false} TotalUsesOnlyPrices(lines: seq<CartItem>, before: map<int, Product>, after: map<int, Product>)
    requires Priced(lines, before) && Priced(lines, after)
    requires forall x | x in lines :: before[x.product].price == after[x.product].price
    ensures LinesTotal(lines, before) == LinesTotal(lines, after)
  {
    if lines != [] {
      var last := lines[|lines| - 1];
      assert last in lines;
      TotalUsesOnlyPrices(lines[..|lines| - 1], before, after);
    }
  }

  /** The total is a plain sum: it does not depend on the order of the lines. */
  lemma {:induction false} TotalIgnoresOrder(a: seq<CartItem>, b: seq<CartItem>, products: map<int, Product>)
    requires Priced(a, products)
    requires multiset(a) == multiset(b)
    ensures Priced(b, products)
    ensures LinesTotal(a, products) == LinesTotal(b, products)
    decreases |a|
  {
    PricedSameLines(a, b, products);
    if a != [] {
      var n := |a| - 1;
      var last := a[n];
      assert last in multiset(b);
      assert last in b;
      var k :| 0 <= k < |b| && b[k] == last;
      var rest := b[..k] + b[k + 1..];
      MultisetCancel(a, b, k);
      LinesTotalRemove(b, k, products);
      PricedPrefix(a, n, products);
      TotalIgnoresOrder(a[..n], rest, products);
      assert LinesTotal(a, products) == LinesTotal(a[..n], products) + last.quantity * products[last.product].price;
    }
  }

  lemma PricedSameLines(a: seq<CartItem>, b: seq<CartItem>, products: map<int, Product>)
    requires Priced(a, products) && multiset(a) == multiset(b)
    ensures Priced(b, products)
  {
    forall x | x in b
      ensures x.product in products
    {
      assert x in multiset(b);
    }
  }

  lemma PricedPrefix(a: seq<CartItem>, n: nat, products: map<int, Product>)
    requires Priced(a, products) && n <= |a|
    ensures Priced(a[..n], products)
  {
    assert forall x | x in a[..n] :: x in a;
  }

  /** Taking the last line of `a` and an equal line of `b` leaves equal multisets. */
  lemma MultisetCancel(a: seq<CartItem>, b: seq<CartItem>, k: nat)
    requires a != [] && multiset(a) == multiset(b) && k < |b| && b[k] == a[|a| - 1]
    ensures multiset(a[..|a| - 1]) == multiset(b[..k] + b[k + 1..])
  {
    var n := |a| - 1;
    MultisetRemove(a, n);
    assert a[..n] + a[n + 1..] == a[..n];
    MultisetRemove(b, k);
  }

  lemma MultisetRemove(b: seq<CartItem>, k: nat)
    requires k < |b|
    ensures multiset(b[..k] + b[k + 1..]) == multiset(b) - multiset{b[k]}
  {
    assert b == b[..k] + [b[k]] + b[k + 1..];
  }

  lemma LinesTotalRemove(b: seq<CartItem>, k: nat, products: map<int, Product>)
    requires Priced(b, products) && k < |b|
    ensures Priced(b[..k] + b[k + 1..], products)
    ensures LinesTotal(b, products)
         == LinesTotal(b[..k] + b[k + 1..], products) + b[k].quantity * products[b[k].product].price
  {
    var x := b[k];
    assert x in b;
    assert b == b[..k] + [x] + b[k + 1..];
    assert forall y | y in b[..k] :: y in b;
    assert forall y | y in b[k + 1..] :: y in b;
    LinesTotalConcat(b[..k], [x], products);
    LinesTotalConcat(b[..k] + [x], b[k + 1..], products);
    LinesTotalConcat(b[..k], b[k + 1..], products);
    assert [x][..0] == [];
  }
}
