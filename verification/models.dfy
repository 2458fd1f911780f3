/**
 * The three tables of the marketplace (marketplace/models.py) and the
 * constraints that their field declarations put on every stored row.
 */
module Models {

  /** `max_length` of the product title's CharField. */
  const MaxTitleLength := 30

  /**
   * A Product row. The source stores `price` as a float; here it is an
   * integer number of cents. `inventoryCount` is an `int` so that a state
   * violating the PositiveIntegerField constraint can be written down and
   * ruled out by ValidProduct.
   */
  datatype Product = Product(title: string, price: int, inventoryCount: int)

  /** A Cart row: exactly one owner (a user id) and the completion flag. */
  datatype Cart = Cart(owner: int, complete: bool)

  /** A CartItem row: one cart, one product and a quantity. */
  datatype CartItem = CartItem(cart: int, product: int, quantity: int)

  /** `blank=False, max_length=30`: a title is neither empty nor longer than 30. */
  predicate ValidTitle(title: string) {
    title != [] && |title| <= MaxTitleLength
  }

  /** Constraints of a stored product; the stock is a PositiveIntegerField (zero allowed). */
  predicate ValidProduct(p: Product) {
    ValidTitle(p.title) && p.inventoryCount >= 0
  }

  /** The quantity of a stored item is a PositiveIntegerField too: zero is allowed. */
  predicate ValidItem(x: CartItem) {
    x.quantity >= 0
  }

  /** A newly created cart: `default=False` for `complete`. */
  function NewCart(owner: int): (c: Cart)
  {
    Cart(owner, false)
  }
}
