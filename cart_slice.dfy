/**
 * The cart slice of the Redux store: the cart state, its five reducers
 * (`addItem`, `removeItem`, `updateQuantity`, `clearCart`, `loadCart`) and
 * the initial state read from a persisted snapshot.
 *
 * Prices are whole cents. Every reducer except `loadCart` recomputes
 * `itemCount` as the sum of the quantities and `total` as the sum of
 * price times quantity; `loadCart` and the initial hydration take the
 * snapshot as it is.
 */
module CartSlice {
  import opened Wrappers
  import opened Strings

  /** One line of the cart. `price` is the unit price in cents. */
  datatype CartItem = CartItem(
    id: int,
    productId: int,
    title: string,
    price: int,
    quantity: int,
    thumbnail: string,
    category: string)

  /** The cart state: its lines in insertion order and the two derived totals. */
  datatype Cart = Cart(items: seq<CartItem>, total: int, itemCount: int)

  const EmptyCart := Cart([], 0, 0)

  /** `items.reduce((total, item) => total + item.quantity, 0)`, folded from the left. */
  function SumQuantity(items: seq<CartItem>): int {
    if |items| == 0 then 0
    else SumQuantity(items[..|items| - 1]) + items[|items| - 1].quantity
  }

  /** `items.reduce((total, item) => total + item.price * item.quantity, 0)`. */
  function SumTotal(items: seq<CartItem>): int {
    if |items| == 0 then 0
    else SumTotal(items[..|items| - 1]) + items[|items| - 1].price * items[|items| - 1].quantity
  }

  /** The derived totals agree with the lines. */
  predicate Consistent(c: Cart) {
    c.itemCount == SumQuantity(c.items) && c.total == SumTotal(c.items)
  }

  /** Some line of `items` is for product `id`. */
  predicate Has(items: seq<CartItem>, id: int) {
    exists k :: 0 <= k < |items| && items[k].productId == id
  }

  /** At most one line per product. */
  predicate UniqueIds(items: seq<CartItem>) {
    forall i, j :: 0 <= i < j < |items| ==> items[i].productId != items[j].productId
  }

  /** Every line holds a positive quantity. */
  predicate PositiveQuantities(items: seq<CartItem>) {
    forall k :: 0 <= k < |items| ==> items[k].quantity > 0
  }

  /**
   * `items.find(item => item.productId === id)`, as the index of the line
   * it returns: the first line for `id`, or `None` when there is none.
   */
  function Find(items: seq<CartItem>, id: int): (r: Option<nat>)
    ensures r.Some? ==> r.value < |items| && items[r.value].productId == id
    ensures r.Some? ==> forall j :: 0 <= j < r.value ==> items[j].productId != id
    ensures r.None? <==> !Has(items, id)
  {
    if |items| == 0 then None
    else if items[0].productId == id then Some(0)
    else match Find(items[1..], id)
      case None =>
        assert forall k :: 0 < k < |items| ==> items[k] == items[1..][k - 1];
        None
      case Some(k) => Some(k + 1)
  }

  /** `items.filter(item => item.productId !== id)`. */
  function Without(items: seq<CartItem>, id: int): (r: seq<CartItem>)
    ensures forall k :: 0 <= k < |r| ==> r[k].productId != id
    ensures forall x :: x in r ==> x in items
    ensures |r| <= |items|
  {
    if |items| == 0 then []
    else if items[0].productId == id then Without(items[1..], id)
    else [items[0]] + Without(items[1..], id)
  }

  /** The line at index `k` with its quantity replaced. */
  function WithQuantity(items: seq<CartItem>, k: nat, quantity: int): seq<CartItem>
    requires k < |items|
  {
    items[k := items[k].(quantity := quantity)]
  }

  /** The lines with their totals recomputed, as every mutating reducer ends. */
  function Recount(items: seq<CartItem>): Cart {
    Cart(items, SumTotal(items), SumQuantity(items))
  }

  /** The lines after `addItem(payload)`: merged into the first line for its product, else appended. */
  function Added(items: seq<CartItem>, payload: CartItem): seq<CartItem> {
    match Find(items, payload.productId)
    case Some(k) => WithQuantity(items, k, items[k].quantity + payload.quantity)
    case None => items + [payload]
  }

  /** The actions the slice exports. */
  datatype Action =
    | AddItem(item: CartItem)
    | RemoveItem(productId: int)
    | UpdateQuantity(productId: int, quantity: int)
    | ClearCart
    | LoadCart(snapshot: Cart)

  /** The slice's reducer: the state after `action`. */
  function Reduce(s: Cart, action: Action): Cart {
    match action
    case AddItem(payload) => Recount(Added(s.items, payload))
    case RemoveItem(id) => Recount(Without(s.items, id))
    case UpdateQuantity(id, quantity) =>
      (match Find(s.items, id)
       case None => s
       case Some(k) =>
         if quantity <= 0 then Recount(Without(s.items, id))
         else Recount(WithQuantity(s.items, k, quantity)))
    case ClearCart => EmptyCart
    case LoadCart(snapshot) => snapshot
  }

  /** What `JSON.parse` made of the stored string. */
  datatype Stored = Unparsable | ItemsNotArray | Parsed(cart: Cart)

  /**
   * `getInitialCart`: the parsed snapshot, verbatim, when running in a
   * browser with a non-empty stored string whose `items` is an array;
   * otherwise the empty cart.
   */
  function InitialCart(inBrowser: bool, stored: Option<string>, parse: string -> Stored): (r: Cart)
    ensures inBrowser && Truthy(stored) && parse(stored.value).Parsed? ==> r == parse(stored.value).cart
    ensures !(inBrowser && Truthy(stored) && parse(stored.value).Parsed?) ==> r == EmptyCart
  {
    if !inBrowser || !Truthy(stored) then EmptyCart
    else match parse(stored.value)
      case Parsed(c) => c
      case _ => EmptyCart
  }

  /** The slice state, which the reducers update in place. */
  class CartStore {
    var items: seq<CartItem>
    var total: int
    var itemCount: int

    function State(): Cart
      reads this
    {
      Cart(items, total, itemCount)
    }

    /** `createSlice({ initialState })`. */
    constructor (initial: Cart)
      ensures State() == initial
    {
      items := initial.items;
      total := initial.total;
      itemCount := initial.itemCount;
    }

    method AddItem(payload: CartItem)
      modifies this
      ensures State() == Reduce(old(State()), Action.AddItem(payload))
      ensures Consistent(State())
    {
      var existing := Find(items, payload.productId);
      if existing.Some? {
        var k := existing.value;
        items := items[k := items[k].(quantity := items[k].quantity + payload.quantity)];
      } else {
        items := items + [payload];
      }
      itemCount := SumQuantity(items);
      total := SumTotal(items);
    }

    method RemoveItem(id: int)
      modifies this
      ensures State() == Reduce(old(State()), Action.RemoveItem(id))
      ensures Consistent(State())
    {
      items := Without(items, id);
      itemCount := SumQuantity(items);
      total := SumTotal(items);
    }

    method UpdateQuantity(id: int, quantity: int)
      modifies this
      ensures State() == Reduce(old(State()), Action.UpdateQuantity(id, quantity))
      ensures Has(old(items), id) ==> Consistent(State())
      ensures !Has(old(items), id) ==> State() == old(State())
    {
      var item := Find(items, id);
      if item.Some? {
        if quantity <= 0 {
          items := Without(items, id);
        } else {
          var k := item.value;
          items := items[k := items[k].(quantity := quantity)];
        }
        itemCount := SumQuantity(items);
        total := SumTotal(items);
      }
    }

    method ClearCart()
      modifies this
      ensures State() == EmptyCart
    {
      items := [];
      total := 0;
      itemCount := 0;
    }

    method LoadCart(snapshot: Cart)
      modifies this
      ensures State() == snapshot
    {
      items := snapshot.items;
      total := snapshot.total;
      itemCount := snapshot.itemCount;
    }

    /** `dispatch(action)`: runs the reducer the action names. */
    method Dispatch(action: Action)
      modifies this
      ensures State() == Reduce(old(State()), action)
    {
      match action
      case AddItem(payload) => AddItem(payload);
      case RemoveItem(id) => RemoveItem(id);
      case UpdateQuantity(id, quantity) => UpdateQuantity(id, quantity);
      case ClearCart => ClearCart();
      case LoadCart(snapshot) => LoadCart(snapshot);
    }
  }

  // ----- Sums -----

  lemma {:induction false} SumQuantityAfterUpdate(items: seq<CartItem>, k: nat, x: CartItem)
    requires k < |items|
    ensures SumQuantity(items[k := x]) == SumQuantity(items) - items[k].quantity + x.quantity
  {
    var n := |items|;
    if k < n - 1 {
      assert items[k := x][..n - 1] == items[..n - 1][k := x];
      SumQuantityAfterUpdate(items[..n - 1], k, x);
    } else {
      assert items[k := x][..n - 1] == items[..n - 1];
    }
  }

  lemma {:induction false} SumTotalAfterUpdate(items: seq<CartItem>, k: nat, x: CartItem)
    requires k < |items|
    ensures SumTotal(items[k := x]) == SumTotal(items) - items[k].price * items[k].quantity + x.price * x.quantity
  {
    var n := |items|;
    if k < n - 1 {
      assert items[k := x][..n - 1] == items[..n - 1][k := x];
      SumTotalAfterUpdate(items[..n - 1], k, x);
    } else {
      assert items[k := x][..n - 1] == items[..n - 1];
    }
  }

  lemma {:induction false} SumQuantityConcat(a: seq<CartItem>, b: seq<CartItem>)
    ensures SumQuantity(a + b) == SumQuantity(a) + SumQuantity(b)
  {
    if |b| > 0 {
      assert (a + b)[..|a + b| - 1] == a + b[..|b| - 1];
      SumQuantityConcat(a, b[..|b| - 1]);
    } else {
      assert a + b == a;
    }
  }

  // ----- addItem -----

  /**
   * Adding a product that already has a line adds the payload's quantity to
   * that line (the first one for the product), adds no line and leaves every
   * other line as it was.
   */
  lemma AddExisting(s: Cart, payload: CartItem, k: nat)
    requires k < |s.items| && s.items[k].productId == payload.productId
    requires forall j :: 0 <= j < k ==> s.items[j].productId != payload.productId
    ensures Reduce(s, Action.AddItem(payload)).items
         == s.items[k := s.items[k].(quantity := s.items[k].quantity + payload.quantity)]
  {
  }

  /** Adding a new product appends the payload, unvalidated, after the existing lines. */
  lemma AddNew(s: Cart, payload: CartItem)
    requires !Has(s.items, payload.productId)
    ensures Reduce(s, Action.AddItem(payload)).items == s.items + [payload]
  {
  }

  /**
   * After `addItem` the count grows by exactly the payload's quantity; the
   * total grows by that quantity times the unit price of the line it lands
   * in, which for an existing line is that line's price, not the payload's.
   */
  lemma AddItemTotals(s: Cart, payload: CartItem)
    ensures var r := Reduce(s, Action.AddItem(payload));
      && Consistent(r)
      && r.itemCount == SumQuantity(s.items) + payload.quantity
      && r.total == SumTotal(s.items) + Added(s.items, payload)[LineOf(s.items, payload)].price * payload.quantity
  {
    match Find(s.items, payload.productId)
    case Some(k) =>
      var line := s.items[k];
      var x := line.(quantity := line.quantity + payload.quantity);
      assert Added(s.items, payload) == s.items[k := x];
      SumQuantityAfterUpdate(s.items, k, x);
      SumTotalAfterUpdate(s.items, k, x);
      assert x.price * x.quantity == line.price * line.quantity + line.price * payload.quantity by {
        assert x.price == line.price;
        assert line.price * (line.quantity + payload.quantity)
            == line.price * line.quantity + line.price * payload.quantity;
      }
    case None =>
      assert Added(s.items, payload) == s.items + [payload];
      SumQuantityConcat(s.items, [payload]);
      assert (s.items + [payload])[..|s.items|] == s.items;
  }

  /**
   * Adding a positive quantity keeps every line positive: it either raises
   * an existing line or appends the payload.
   */
  lemma AddKeepsPositive(s: Cart, payload: CartItem)
    requires PositiveQuantities(s.items) && payload.quantity > 0
    ensures PositiveQuantities(Reduce(s, Action.AddItem(payload)).items)
  {
    var r := Reduce(s, Action.AddItem(payload)).items;
    match Find(s.items, payload.productId)
    case Some(k) =>
      assert r == s.items[k := s.items[k].(quantity := s.items[k].quantity + payload.quantity)];
    case None =>
      assert r == s.items + [payload];
      assert forall j :: 0 <= j < |s.items| ==> r[j] == s.items[j];
  }

  /** The index of the line `addItem(payload)` puts the payload's quantity into. */
  function LineOf(items: seq<CartItem>, payload: CartItem): (k: nat)
    ensures k < |Added(items, payload)|
    ensures Added(items, payload)[k].productId == payload.productId
  {
    match Find(items, payload.productId)
    case Some(k) => k
    case None => |items|
  }

  /** `addItem` keeps "at most one line per product". */
  lemma AddKeepsUniqueIds(items: seq<CartItem>, payload: CartItem)
    requires UniqueIds(items)
    ensures UniqueIds(Added(items, payload))
  {
  }

  /** The state after dispatching `addItem` for each payload in turn. */
  function AddAll(s: Cart, payloads: seq<CartItem>): Cart {
    if |payloads| == 0 then s
    else Reduce(AddAll(s, payloads[..|payloads| - 1]), Action.AddItem(payloads[|payloads| - 1]))
  }

  /**
   * After any non-empty sequence of `addItem` calls the state is consistent
   * and its count is the old count of the lines plus every quantity added.
   */
  lemma {:induction false} AddAllCounts(s: Cart, payloads: seq<CartItem>)
    requires |payloads| > 0
    ensures Consistent(AddAll(s, payloads))
    ensures AddAll(s, payloads).itemCount == SumQuantity(s.items) + SumQuantity(payloads)
  {
    var n := |payloads|;
    var init := payloads[..n - 1];
    var last := payloads[n - 1];
    var before := AddAll(s, init);
    assert AddAll(s, payloads) == Reduce(before, Action.AddItem(last));
    AddItemTotals(before, last);
    assert SumQuantity(payloads) == SumQuantity(init) + last.quantity;
    if n > 1 {
      AddAllCounts(s, init);
    } else {
      assert init == [];
    }
  }

  /** Adding product 1 at 10 cents twice, two then one, leaves one line of 3 totalling 30. */
  lemma AddSameProductTwice(title: string, thumbnail: string, category: string)
    ensures var first := CartItem(1, 1, title, 10, 2, thumbnail, category);
      var second := CartItem(1, 1, title, 10, 1, thumbnail, category);
      var r := Reduce(Reduce(EmptyCart, Action.AddItem(first)), Action.AddItem(second));
      |r.items| == 1 && r.items[0].quantity == 3 && r.total == 30 && r.itemCount == 3
  {
    var first := CartItem(1, 1, title, 10, 2, thumbnail, category);
    var one := Reduce(EmptyCart, Action.AddItem(first));
    assert one.items == [first];
    assert Find(one.items, 1) == Some(0);
    var merged := first.(quantity := 3);
    var two := Reduce(one, Action.AddItem(CartItem(1, 1, title, 10, 1, thumbnail, category)));
    assert two.items == [merged];
    assert [merged][..0] == [];
    assert SumQuantity([merged]) == 3 && SumTotal([merged]) == 30;
  }

  // ----- removeItem -----

  /** Filtering keeps the order of the kept lines: it distributes over concatenation. */
  lemma {:induction false} WithoutConcat(a: seq<CartItem>, b: seq<CartItem>, id: int)
    ensures Without(a + b, id) == Without(a, id) + Without(b, id)
  {
    if |a| > 0 {
      assert (a + b)[1..] == a[1..] + b;
      WithoutConcat(a[1..], b, id);
    } else {
      assert a + b == b;
    }
  }

  /** A single line is kept exactly when it is for another product. */
  lemma WithoutSingle(x: CartItem, id: int)
    ensures Without([x], id) == if x.productId == id then [] else [x]
  {
    assert [x][1..] == [];
  }

  /** Removing a product that has no line changes nothing. */
  lemma {:induction false} WithoutAbsent(items: seq<CartItem>, id: int)
    requires !Has(items, id)
    ensures Without(items, id) == items
  {
    if |items| > 0 {
      assert !Has(items[1..], id) by {
        forall k | 0 <= k < |items[1..]| ensures items[1..][k].productId != id {
          assert items[1..][k] == items[k + 1];
        }
      }
      WithoutAbsent(items[1..], id);
      assert items == [items[0]] + items[1..];
    }
  }

  /** `removeItem(x)` twice is `removeItem(x)` once. */
  lemma RemoveIdempotent(s: Cart, id: int)
    ensures Reduce(Reduce(s, Action.RemoveItem(id)), Action.RemoveItem(id)) == Reduce(s, Action.RemoveItem(id))
  {
    WithoutAbsent(Without(s.items, id), id);
  }

  /** After `removeItem(x)` no line is for `x`, and the totals match the remaining lines. */
  lemma RemoveDropsProduct(s: Cart, id: int)
    ensures !Has(Reduce(s, Action.RemoveItem(id)).items, id)
    ensures Consistent(Reduce(s, Action.RemoveItem(id)))
  {
  }

  /** Filtering keeps "at most one line per product". */
  lemma {:induction false} WithoutKeepsUniqueIds(items: seq<CartItem>, id: int)
    requires UniqueIds(items)
    ensures UniqueIds(Without(items, id))
  {
    if |items| > 0 {
      var tail := items[1..];
      assert UniqueIds(tail) by {
        forall i, j | 0 <= i < j < |tail| ensures tail[i].productId != tail[j].productId {
          assert tail[i] == items[i + 1] && tail[j] == items[j + 1];
        }
      }
      WithoutKeepsUniqueIds(tail, id);
      if items[0].productId != id {
        var rest := Without(tail, id);
        forall j | 0 <= j < |rest| ensures items[0].productId != rest[j].productId {
          assert rest[j] in tail;
          var m :| 0 <= m < |tail| && tail[m] == rest[j];
          assert tail[m] == items[m + 1];
        }
        assert Without(items, id) == [items[0]] + rest;
      }
    }
  }

  // ----- updateQuantity -----

  /** A quantity of zero or less on a product that has a line is `removeItem`. */
  lemma UpdateNonPositiveRemoves(s: Cart, id: int, quantity: int)
    requires Has(s.items, id) && quantity <= 0
    ensures Reduce(s, Action.UpdateQuantity(id, quantity)) == Reduce(s, Action.RemoveItem(id))
  {
  }

  /** A positive quantity on a product that has a line sets that line's quantity and nothing else. */
  lemma UpdatePositiveSets(s: Cart, id: int, quantity: int, k: nat)
    requires Find(s.items, id) == Some(k)
    requires quantity > 0
    ensures var r := Reduce(s, Action.UpdateQuantity(id, quantity));
      && r.items == s.items[k := s.items[k].(quantity := quantity)]
      && r.itemCount == SumQuantity(s.items) - s.items[k].quantity + quantity
  {
    SumQuantityAfterUpdate(s.items, k, s.items[k].(quantity := quantity));
  }

  /** `updateQuantity` on a product with no line leaves the whole state, totals included, unchanged. */
  lemma UpdateAbsentUnchanged(s: Cart, id: int, quantity: int)
    requires !Has(s.items, id)
    ensures Reduce(s, Action.UpdateQuantity(id, quantity)) == s
  {
  }

  /** `updateQuantity` keeps "at most one line per product". */
  lemma UpdateKeepsUniqueIds(s: Cart, id: int, quantity: int)
    requires UniqueIds(s.items)
    ensures UniqueIds(Reduce(s, Action.UpdateQuantity(id, quantity)).items)
  {
    if Has(s.items, id) && quantity <= 0 {
      WithoutKeepsUniqueIds(s.items, id);
    }
  }

  // ----- the reducer as a whole -----

  /**
   * Every transition but `loadCart` leaves totals derived from the lines
   * (for `updateQuantity` on a missing product the state is returned as it
   * was, so it is consistent if it was).
   */
  lemma ReduceKeepsConsistent(s: Cart, action: Action)
    requires !action.LoadCart?
    requires action.UpdateQuantity? && !Has(s.items, action.productId) ==> Consistent(s)
    ensures Consistent(Reduce(s, action))
  {
  }

  /** Every transition but `loadCart` keeps "at most one line per product". */
  lemma ReduceKeepsUniqueIds(s: Cart, action: Action)
    requires !action.LoadCart? && UniqueIds(s.items)
    ensures UniqueIds(Reduce(s, action).items)
  {
    match action
    case AddItem(payload) => AddKeepsUniqueIds(s.items, payload);
    case RemoveItem(id) => WithoutKeepsUniqueIds(s.items, id);
    case UpdateQuantity(id, quantity) => UpdateKeepsUniqueIds(s, id, quantity);
    case ClearCart =>
  }

  /** `clearCart` then `loadCart(snapshot)` gives the snapshot exactly, with nothing merged or recomputed. */
  lemma ClearThenLoad(s: Cart, snapshot: Cart)
    ensures Reduce(Reduce(s, Action.ClearCart), Action.LoadCart(snapshot)) == snapshot
    ensures Reduce(s, Action.ClearCart) == Cart([], 0, 0)
  {
  }
}
