/**
 * The product detail component: a quantity selector bounded by the stock
 * and an "Add to Cart" button that dispatches `addItem` with the selected
 * quantity and then resets the selector to 1.
 *
 * The discounted unit price is computed from floating-point fields; here it
 * is given, in cents, as `unitPrice`.
 */
module ProductDetailsComponent {
  import opened CartSlice

  /** The product fields the component reads. */
  datatype Product = Product(id: int, title: string, stock: int, thumbnail: string, category: string)

  /** `Math.max(1, Math.min(stock, quantity + change))`. */
  function ClampQuantity(stock: int, quantity: int, change: int): (r: int)
    ensures r >= 1
    ensures stock >= 1 ==> r <= stock
    ensures 1 <= quantity + change <= stock ==> r == quantity + change
    ensures quantity + change > stock ==> r == if stock >= 1 then stock else 1
    ensures quantity + change < 1 ==> r == 1
  {
    var capped := if stock < quantity + change then stock else quantity + change;
    if capped < 1 then 1 else capped
  }

  /** The "−" button is disabled at quantity 1. */
  predicate MinusEnabled(quantity: int) {
    quantity != 1
  }

  /** The "+" button is disabled once the quantity reaches the stock. */
  predicate PlusEnabled(stock: int, quantity: int) {
    quantity != stock
  }

  /** "Add to Cart" is disabled for a product out of stock. */
  predicate AddEnabled(product: Product) {
    product.stock != 0
  }

  /** The payload `addItem` receives: the product's identity and the selected quantity. */
  function CartLine(product: Product, unitPrice: int, quantity: int): (line: CartItem)
    ensures line.id == product.id && line.productId == product.id
    ensures line.price == unitPrice && line.quantity == quantity
  {
    CartItem(product.id, product.id, product.title, unitPrice, quantity, product.thumbnail, product.category)
  }

  /** The component for one product, bound to the store it dispatches to. */
  class ProductDetailsView {
    const product: Product
    const unitPrice: int
    const cart: CartStore
    var quantity: int
    var isAdding: bool

    /** The selected quantity is never below 1. */
    predicate Valid()
      reads this
    {
      quantity >= 1
    }

    constructor (product: Product, unitPrice: int, cart: CartStore)
      ensures this.product == product && this.unitPrice == unitPrice && this.cart == cart
      ensures quantity == 1 && !isAdding && Valid()
    {
      this.product := product;
      this.unitPrice := unitPrice;
      this.cart := cart;
      quantity := 1;
      isAdding := false;
    }

    /** `handleQuantityChange(change)`. */
    method HandleQuantityChange(change: int)
      modifies this
      ensures quantity == ClampQuantity(product.stock, old(quantity), change)
      ensures isAdding == old(isAdding)
      ensures Valid()
    {
      quantity := ClampQuantity(product.stock, quantity, change);
    }

    /** `handleAddToCart()`: add the selected quantity, then reset the selector. */
    method HandleAddToCart()
      requires Valid()
      modifies this, cart
      ensures cart.State() == Reduce(old(cart.State()), AddItem(CartLine(product, unitPrice, old(quantity))))
      ensures PositiveQuantities(old(cart.items)) ==> PositiveQuantities(cart.items)
      ensures quantity == 1 && !isAdding && Valid()
    {
      isAdding := true;
      var line := CartLine(product, unitPrice, quantity);
      if PositiveQuantities(cart.items) {
        AddToCartKeepsPositive(cart.State(), product, unitPrice, quantity);
      }
      cart.AddItem(line);
      quantity := 1;
      isAdding := false;
    }
  }

  /**
   * Pressing an enabled button moves the selection by exactly one and keeps
   * it between 1 and the stock.
   */
  lemma EnabledButtonsStep(stock: int, quantity: int)
    requires 1 <= quantity <= stock
    ensures MinusEnabled(quantity) ==> ClampQuantity(stock, quantity, -1) == quantity - 1
    ensures PlusEnabled(stock, quantity) ==> ClampQuantity(stock, quantity, 1) == quantity + 1
    ensures 1 <= ClampQuantity(stock, quantity, -1) <= stock
    ensures 1 <= ClampQuantity(stock, quantity, 1) <= stock
  {
  }

  /**
   * While "Add to Cart" is enabled the product is in stock (the stock is
   * never negative), so every selection the clamp produces lies in
   * [1, stock].
   */
  lemma SelectionWithinStock(product: Product, quantity: int, change: int)
    requires AddEnabled(product) && product.stock >= 0
    ensures 1 <= ClampQuantity(product.stock, quantity, change) <= product.stock
  {
  }

  /**
   * "Add to Cart" never stores a line of quantity zero or less: the
   * selection it adds is at least 1.
   */
  lemma AddToCartKeepsPositive(s: Cart, product: Product, unitPrice: int, quantity: int)
    requires PositiveQuantities(s.items) && quantity >= 1
    ensures PositiveQuantities(Reduce(s, AddItem(CartLine(product, unitPrice, quantity))).items)
  {
    AddKeepsPositive(s, CartLine(product, unitPrice, quantity));
  }

  /**
   * A click on "Add to Cart" raises the cart's item count by exactly the
   * selected quantity, and the product then has a line in the cart.
   */
  lemma AddToCartAddsSelection(s: Cart, product: Product, unitPrice: int, quantity: int)
    ensures var r := Reduce(s, AddItem(CartLine(product, unitPrice, quantity)));
      r.itemCount == SumQuantity(s.items) + quantity && Has(r.items, product.id)
  {
    var line := CartLine(product, unitPrice, quantity);
    AddItemTotals(s, line);
    var k := LineOf(s.items, line);
    assert Reduce(s, AddItem(line)).items[k].productId == product.id;
  }
}
