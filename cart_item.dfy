/**
 * The cart line component: its quantity buttons and its remove button
 * choose which cart action to dispatch, with `isUpdating` raised while the
 * dispatch runs.
 */
module CartItemComponent {
  import opened Wrappers
  import opened CartSlice

  /** `handleQuantityChange(newQuantity)`: zero or less removes the line, anything else sets its quantity. */
  function QuantityChange(item: CartItem, newQuantity: int): (action: Action)
    ensures action.RemoveItem? || action.UpdateQuantity?
    ensures action.productId == item.productId
    ensures action.RemoveItem? <==> newQuantity <= 0
    ensures action.UpdateQuantity? ==> action.quantity == newQuantity && action.quantity > 0
  {
    if newQuantity <= 0 then RemoveItem(item.productId)
    else UpdateQuantity(item.productId, newQuantity)
  }

  /** The component for one cart line, bound to the store it dispatches to. */
  class CartItemView {
    const item: CartItem
    const cart: CartStore
    var isUpdating: bool

    constructor (item: CartItem, cart: CartStore)
      ensures this.item == item && this.cart == cart && !isUpdating
    {
      this.item := item;
      this.cart := cart;
      isUpdating := false;
    }

    method HandleQuantityChange(newQuantity: int)
      modifies this, cart
      ensures cart.State() == Reduce(old(cart.State()), QuantityChange(item, newQuantity))
      ensures !isUpdating
    {
      isUpdating := true;
      if newQuantity <= 0 {
        cart.RemoveItem(item.productId);
      } else {
        cart.UpdateQuantity(item.productId, newQuantity);
      }
      isUpdating := false;
    }

    method HandleRemove()
      modifies this, cart
      ensures cart.State() == Reduce(old(cart.State()), RemoveItem(item.productId))
      ensures !isUpdating
    {
      isUpdating := true;
      cart.RemoveItem(item.productId);
      isUpdating := false;
    }

    /** The "−" button. */
    method Decrement()
      modifies this, cart
      ensures cart.State() == Reduce(old(cart.State()), QuantityChange(item, item.quantity - 1))
      ensures !isUpdating
    {
      HandleQuantityChange(item.quantity - 1);
    }

    /** The "+" button. */
    method Increment()
      modifies this, cart
      ensures cart.State() == Reduce(old(cart.State()), QuantityChange(item, item.quantity + 1))
      ensures !isUpdating
    {
      HandleQuantityChange(item.quantity + 1);
    }
  }

  /** "−" on a line of quantity 1 takes the product out of the cart altogether. */
  lemma DecrementAtOneRemoves(s: Cart, item: CartItem)
    requires item.quantity == 1
    ensures !Has(Reduce(s, QuantityChange(item, item.quantity - 1)).items, item.productId)
  {
  }

  /**
   * The buttons never store a quantity of zero or less: if every line was
   * positive before a quantity change, every line is positive after it.
   */
  lemma QuantityChangeKeepsPositive(s: Cart, item: CartItem, newQuantity: int)
    requires PositiveQuantities(s.items)
    ensures PositiveQuantities(Reduce(s, QuantityChange(item, newQuantity)).items)
  {
    var r := Reduce(s, QuantityChange(item, newQuantity)).items;
    if newQuantity <= 0 || !Has(s.items, item.productId) {
      forall k | 0 <= k < |r| ensures r[k].quantity > 0 {
        assert r[k] in s.items;
      }
    }
  }

  /** "+" on a line of the cart adds exactly one to that line and to the item count. */
  lemma IncrementAddsOne(s: Cart, item: CartItem, k: nat)
    requires Find(s.items, item.productId) == Some(k) && s.items[k] == item
    requires item.quantity >= 0
    ensures var r := Reduce(s, QuantityChange(item, item.quantity + 1));
      r.items[k].quantity == item.quantity + 1 && r.itemCount == SumQuantity(s.items) + 1
  {
    UpdatePositiveSets(s, item.productId, item.quantity + 1, k);
  }
}
