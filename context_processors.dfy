/** billing/context_processors.py: the cart badge shown on every page. */
module ContextProcessors {
  import opened Wrappers
  import Cart

  const CartItemCountKey: string := "cart_item_count"

  /**
   * `cart_count(request)`: the number of units in the session cart, 0 for
   * no request or an empty cart, under the single key "cart_item_count".
   * `request` is None for a missing request, otherwise the request's cart.
   */
  function CartCount(request: Option<Cart.CartValue>): (context: map<string, int>)
    requires request.Some? ==> Cart.WellFormed(request.value)
    ensures context.Keys == {CartItemCountKey}
    ensures request.None? ==> context[CartItemCountKey] == 0
    ensures request.Some? && request.value.keys == [] ==> context[CartItemCountKey] == 0
    ensures request.Some? ==> context[CartItemCountKey] == Cart.UnitCount(request.value)
  {
    var cart := if request.Some? then request.value else Cart.Empty;
    var count := if cart.keys != [] then Cart.UnitCount(cart) else 0;
    map[CartItemCountKey := count]
  }

  /** After an add, the badge shows one more unit. */
  lemma CartCountAfterAdd(cart: Cart.CartValue, productId: nat)
    requires Cart.WellFormed(cart)
    ensures CartCount(Some(Cart.Add(cart, productId)))[CartItemCountKey]
         == CartCount(Some(cart))[CartItemCountKey] + 1
  {
    Cart.AddCountsOneUnit(cart, productId);
  }
}
