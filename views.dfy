/**
 * What the request handlers do with a cart, kept to the part that matters
 * for the cart's state: `cart_add` changes the cart only when the form is
 * valid, and each request builds its own Cart on the session.
 */
module CartViews {
  import opened Wrappers
  import opened Catalog
  import opened CartLines
  import opened CartForms
  import opened SessionCart

  /**
   * `cart_add` after the product has been found: validate the posted form and
   * add with its cleaned quantity and override flag only when it is valid.
   * As every valid quantity is at least 1, a cart without empty lines stays so.
   */
  method CartAdd(cart: Cart, product: Product, quantityField: Option<string>, overrideField: Option<string>)
    requires cart.Valid()
    modifies cart.table, cart.session`modified
    ensures cart.Valid()
    ensures CleanForm(quantityField, overrideField).Err? ==>
      cart.table.entries == old(cart.table.entries) && cart.table.order == old(cart.table.order)
      && cart.session.modified == old(cart.session.modified)
    ensures CleanForm(quantityField, overrideField).Ok? ==>
      var d := CleanForm(quantityField, overrideField).value;
      cart.table.entries == Added(old(cart.table.entries), product, d.quantity, d.overrideQuantity)
      && cart.table.order == AddedOrder(old(cart.table.order), old(cart.table.entries), product.id)
      && cart.session.modified
    ensures AllPositive(old(cart.table.entries)) ==> AllPositive(cart.table.entries)
  {
    var form := CleanForm(quantityField, overrideField);
    if form.Ok? {
      var d := form.value;
      if AllPositive(cart.table.entries) {
        AddKeepsPositive(cart.table.entries, product, d.quantity, d.overrideQuantity);
      }
      cart.Add(product, quantity := d.quantity, overrideQuantity := d.overrideQuantity);
    }
  }

  /**
   * `clear()` followed by the next request's `Cart(request)`: the new cart is
   * empty.  The cleared cart object itself still holds its lines.
   */
  method ClearThenReload(cart: Cart) returns (keyError: bool, next: Cart)
    requires cart.Valid()
    modifies cart.session
    ensures keyError == (old(cart.session.stored) == null)
    ensures !keyError ==> next.Valid() && next.Len() == 0 && next.TotalPrice() == 0 && next.session == cart.session
    ensures !keyError ==> next.table.entries == map[] && next.table.order == [] && cart.session.stored == next.table
    ensures cart.table.entries == old(cart.table.entries)
  {
    keyError := cart.Clear();
    next := new Cart(cart.session);
  }

  /** Two products at 10.00 and 5.00: add two of the first and one of the second, then remove the first. */
  method AddAddRemove(cart: Cart) returns (counts: seq<int>, totals: seq<int>)
    requires cart.Valid() && cart.table.entries == map[]
    modifies cart.table, cart.session`modified
    ensures cart.Valid()
    ensures counts == [2, 3, 1] && totals == [2000, 2500, 500]
    ensures cart.Len() == 1
  {
    var a, b := Product(1, 1000), Product(2, 500);
    cart.Add(a, 2);
    var n1, t1 := cart.Len(), cart.TotalPrice();
    assert b.id !in cart.table.entries;
    cart.Add(b, 1);
    var n2, t2 := cart.Len(), cart.TotalPrice();
    assert cart.table.entries[a.id] == Line(2, 1000, None, None);
    cart.Remove(a);
    counts, totals := [n1, n2, cart.Len()], [t1, t2, cart.TotalPrice()];
  }

  /**
   * The scenario above on a new session, then `clear()` and the next
   * request's cart, which is empty; the cleared cart object still counts the
   * one item it held.
   */
  method CheckoutScenario() returns (counts: seq<int>, totals: seq<int>, staleCount: int)
    ensures counts == [2, 3, 1, 0] && totals == [2000, 2500, 500, 0]
    ensures staleCount == 1
  {
    var session := new Session(null);
    var cart := new Cart(session);
    counts, totals := AddAddRemove(cart);
    var n3 := cart.Len();
    var keyError := cart.Clear();
    staleCount := cart.Len();
    assert staleCount == n3;
    var next := new Cart(session);
    counts, totals := counts + [next.Len()], totals + [next.TotalPrice()];
  }
}
