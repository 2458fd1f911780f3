/**
 * The stock side of `CartViewSet.checkout` (marketplace/views.py): what its
 * check loop reports, and what its decrement loop does to the products.
 */
module Inventory {
  import opened Models
  import opened Wrappers
  import opened Serializers

  /** Every line has a quantity the PositiveIntegerField admits. */
  predicate Admissible(lines: seq<CartItem>) {
    forall x | x in lines :: ValidItem(x)
  }

  /**
   * The check loop: the product id of every line whose quantity exceeds that
   * product's stock, in line order, duplicates kept.
   */
  function ShortLines(lines: seq<CartItem>, products: map<int, Product>): seq<int>
    requires Priced(lines, products)
  {
    if lines == [] then []
    else
      var last := lines[|lines| - 1];
      ShortLines(lines[..|lines| - 1], products)
        + (if products[last.product].inventoryCount < last.quantity then [last.product] else [])
  }

  /** Total quantity of product `p` over `lines`. */
  function Demand(lines: seq<CartItem>, p: int): int {
    if lines == [] then 0
    else
      var last := lines[|lines| - 1];
      Demand(lines[..|lines| - 1], p) + (if last.product == p then last.quantity else 0)
  }

  /** Every product has at least as much stock as the lines ask for in total. */
  predicate Fits(lines: seq<CartItem>, products: map<int, Product>) {
    forall p | p in products :: Demand(lines, p) <= products[p].inventoryCount
  }

  /** The products after every line's quantity has been taken off its product's stock. */
  function Deducted(products: map<int, Product>, lines: seq<CartItem>): map<int, Product> {
    map p | p in products :: products[p].(inventoryCount := products[p].inventoryCount - Demand(lines, p))
  }

  // ----- The check loop -----

  /**
   * A product id is reported exactly when some line of it asks for more than
   * its stock; in particular nothing is reported exactly when every line fits.
   */
  lemma {:induction false} ShortLinesReport(lines: seq<CartItem>, products: map<int, Product>)
    requires Priced(lines, products)
    ensures forall id :: id in ShortLines(lines, products) <==>
      exists x | x in lines :: x.product == id && products[id].inventoryCount < x.quantity
    ensures ShortLines(lines, products) == [] <==>
      forall x | x in lines :: x.quantity <= products[x.product].inventoryCount
  {
    if lines != [] {
      var init := lines[..|lines| - 1];
      var last := lines[|lines| - 1];
      assert lines == init + [last];
      assert forall x | x in init :: x in lines;
      ShortLinesReport(init, products);
    }
  }

  // ----- Demand -----

  lemma DemandStep(lines: seq<CartItem>, i: nat, p: int)
    requires i < |lines|
    ensures Demand(lines[..i + 1], p) == Demand(lines[..i], p) + (if lines[i].product == p then lines[i].quantity else 0)
  {
    assert lines[..i + 1][..i] == lines[..i];
  }

  /** A product that no line mentions is not asked for. */
  lemma {:induction false} DemandUnreferenced(lines: seq<CartItem>, p: int)
    requires forall x | x in lines :: x.product != p
    ensures Demand(lines, p) == 0
  {
    if lines != [] {
      var init := lines[..|lines| - 1];
      assert lines[|lines| - 1] in lines;
      assert forall x | x in init :: x in lines;
      DemandUnreferenced(init, p);
    }
  }

  /** With admissible quantities a prefix of the lines never asks for more than all of them. */
  lemma {:induction false} DemandPrefix(lines: seq<CartItem>, k: nat, p: int)
    requires Admissible(lines) && k <= |lines|
    ensures Demand(lines[..k], p) <= Demand(lines, p)
    decreases |lines|
  {
    if k < |lines| {
      var init := lines[..|lines| - 1];
      assert lines[|lines| - 1] in lines;
      assert forall x | x in init :: x in lines;
      assert init[..k] == lines[..k];
      DemandPrefix(init, k, p);
    } else {
      assert lines[..k] == lines;
    }
  }

  /** With admissible quantities one line never asks for more than the lines together. */
  lemma {:induction false} LineWithinDemand(lines: seq<CartItem>, x: CartItem)
    requires Admissible(lines) && x in lines
    ensures x.quantity <= Demand(lines, x.product)
  {
    var init := lines[..|lines| - 1];
    var last := lines[|lines| - 1];
    assert lines == init + [last];
    assert forall y | y in init :: y in lines;
    assert Demand(init, x.product) >= 0 by {
      DemandNonNegative(init, x.product);
    }
    assert last in lines;
    if x != last {
      assert x in init;
      LineWithinDemand(init, x);
    }
  }

  lemma {:induction false} DemandNonNegative(lines: seq<CartItem>, p: int)
    requires Admissible(lines)
    ensures Demand(lines, p) >= 0
  {
    if lines != [] {
      var init := lines[..|lines| - 1];
      assert lines[|lines| - 1] in lines;
      assert forall y | y in init :: y in lines;
      DemandNonNegative(init, p);
    }
  }

  // ----- The gap between the two loops -----

  /** When the summed demand fits, every line fits on its own: the check loop reports nothing. */
  lemma FitsPassesLineCheck(lines: seq<CartItem>, products: map<int, Product>)
    requires Priced(lines, products) && Admissible(lines) && Fits(lines, products)
    ensures ShortLines(lines, products) == []
  {
    forall x | x in lines
      ensures x.quantity <= products[x.product].inventoryCount
    {
      LineWithinDemand(lines, x);
    }
    ShortLinesReport(lines, products);
  }

  /**
   * The converse fails: two lines of 3 for a product with 5 in stock each pass
   * the check loop, but together they ask for 6, so the decrement loop would
   * leave -1.
   */
  lemma LineCheckMissesOversell(c: int)
    ensures var products := map[1 := Product("Mug", 500, 5)];
            var lines := [CartItem(c, 1, 3), CartItem(c, 1, 3)];
            Priced(lines, products) && Admissible(lines)
            && ShortLines(lines, products) == [] && !Fits(lines, products)
            && Deducted(products, lines)[1].inventoryCount == -1
  {
    var products := map[1 := Product("Mug", 500, 5)];
    var lines := [CartItem(c, 1, 3), CartItem(c, 1, 3)];
    assert lines[..1][..0] == [];
    assert lines[..1] == [CartItem(c, 1, 3)];
    assert Demand(lines[..1], 1) == 3;
    assert Demand(lines, 1) == 6;
    assert ShortLines(lines[..1], products) == [];
  }

  // ----- The decrement loop -----

  /** Taking off one more line changes only that line's product, by that line's quantity. */
  lemma DeductedStep(products: map<int, Product>, lines: seq<CartItem>, i: nat)
    requires i < |lines| && lines[i].product in products
    ensures var before := Deducted(products, lines[..i]);
            var p := lines[i].product;
            Deducted(products, lines[..i + 1])
              == before[p := before[p].(inventoryCount := before[p].inventoryCount - lines[i].quantity)]
  {
    forall q | q in products
      ensures Demand(lines[..i + 1], q) == Demand(lines[..i], q) + (if lines[i].product == q then lines[i].quantity else 0)
    {
      DemandStep(lines, i, q);
    }
  }

  /** The check loop of `checkout`, over the lines of the cart. */
  method CheckStock(lines: seq<CartItem>, products: map<int, Product>) returns (outOfStock: seq<int>)
    requires Priced(lines, products)
    ensures outOfStock == ShortLines(lines, products)
  {
    outOfStock := [];
    for i := 0 to |lines|
      invariant outOfStock == ShortLines(lines[..i], products)
    {
      assert lines[..i + 1][..i] == lines[..i];
      assert lines[i] in lines;
      if products[lines[i].product].inventoryCount < lines[i].quantity {
        outOfStock := outOfStock + [lines[i].product];
      }
    }
    assert lines[..|lines|] == lines;
  }

  /**
   * The decrement loop of `checkout` on the prefetched products (one instance
   * per id, so decrements of the same product accumulate). None when some
   * decrement leaves a negative stock, which the PositiveIntegerField refuses
   * to save; otherwise the products with every line's quantity taken off.
   */
  method TakeStock(lines: seq<CartItem>, products: map<int, Product>) returns (stock: Option<map<int, Product>>)
    requires Priced(lines, products) && Admissible(lines)
    requires forall p | p in products :: products[p].inventoryCount >= 0
    ensures stock.Some? <==> Fits(lines, products)
    ensures stock.Some? ==> stock.value == Deducted(products, lines)
  {
    var current := products;
    for i := 0 to |lines|
      invariant current == Deducted(products, lines[..i])
      invariant Fits(lines[..i], products)
    {
      var p := lines[i].product;
      assert lines[i] in lines;
      var left := current[p].inventoryCount - lines[i].quantity;
      DeductedStep(products, lines, i);
      if left < 0 {
        DemandPrefix(lines, i + 1, p);
        return None;
      }
      current := current[p := current[p].(inventoryCount := left)];
      forall q | q in products
        ensures Demand(lines[..i + 1], q) <= products[q].inventoryCount
      {
        DemandStep(lines, i, q);
      }
    }
    assert lines[..|lines|] == lines;
    return Some(current);
  }

  /** When the demand fits, no product's stock drops below zero and every product stays valid. */
  lemma DeductedValid(products: map<int, Product>, lines: seq<CartItem>)
    requires forall p | p in products :: ValidProduct(products[p])
    requires Fits(lines, products)
    ensures Deducted(products, lines).Keys == products.Keys
    ensures forall p | p in products :: ValidProduct(Deducted(products, lines)[p])
  {
  }

  /** Products that no line mentions keep their stock; only the stock field changes. */
  lemma DeductedUntouched(products: map<int, Product>, lines: seq<CartItem>)
    ensures forall p | p in products :: Deducted(products, lines)[p].title == products[p].title
                                     && Deducted(products, lines)[p].price == products[p].price
    ensures forall p | p in products && (forall x | x in lines :: x.product != p) ::
      Deducted(products, lines)[p] == products[p]
  {
    forall p | p in products && (forall x | x in lines :: x.product != p)
      ensures Deducted(products, lines)[p] == products[p]
    {
      DemandUnreferenced(lines, p);
    }
  }

  /** Taking stock off changes no cart's total. */
  lemma DeductedKeepsTotals(items: seq<CartItem>, products: map<int, Product>, lines: seq<CartItem>)
    requires Priced(items, products)
    ensures Priced(items, Deducted(products, lines))
    ensures forall c :: CartTotal(items, Deducted(products, lines), c) == CartTotal(items, products, c)
  {
    var after := Deducted(products, lines);
    forall c
      ensures CartTotal(items, after, c) == CartTotal(items, products, c)
    {
      var own := CartLines(items, c);
      assert forall x | x in own :: x in items;
      TotalUsesOnlyPrices(own, products, after);
    }
  }
}
