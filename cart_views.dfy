/**
 * The cart views of billing/views.py: `add_to_cart` and `remove_from_cart`
 * change the session cart in place.
 */
module CartViews {
  import opened Wrappers
  import Cart
  import Catalog
  import Sessions

  datatype AddOutcome = ProductNotFound | Added(cartCount: nat)

  /**
   * `add_to_cart`: a missing or inactive product is a 404 and the cart is
   * untouched; otherwise the product's quantity goes up by one and the
   * reply carries the new number of units in the cart.
   */
  method AddToCart(session: Sessions.Session, products: map<nat, Catalog.Product>, productId: nat)
    returns (r: AddOutcome)
    requires session.Valid()
    modifies session
    ensures session.Valid()
    ensures r.Added? <==> productId in products && products[productId].active
    ensures r.Added? ==> session.CartValue() == Cart.Add(old(session.CartValue()), productId)
    ensures r.Added? ==> r.cartCount == Cart.UnitCount(old(session.CartValue())) + 1
    ensures r.ProductNotFound? ==> session.CartValue() == old(session.CartValue())
    ensures session.pendingRegistrationId == old(session.pendingRegistrationId)
    ensures session.authUserId == old(session.authUserId)
  {
    if !(productId in products && products[productId].active) {
      return ProductNotFound;
    }
    var cart := session.CartValue();
    var updated := Cart.Add(cart, productId);
    session.SaveCart(updated);
    Cart.AddCountsOneUnit(cart, productId);
    r := Added(Cart.UnitCount(updated));
  }

  /** `remove_from_cart`: deletes the key outright; a missing key changes nothing. */
  method RemoveFromCart(session: Sessions.Session, productId: nat)
    requires session.Valid()
    modifies session
    ensures session.Valid()
    ensures session.CartValue() == Cart.Remove(old(session.CartValue()), productId)
    ensures session.pendingRegistrationId == old(session.pendingRegistrationId)
    ensures session.authUserId == old(session.authUserId)
  {
    var cart := session.CartValue();
    if productId in cart.keys {
      session.SaveCart(Cart.Remove(cart, productId));
    }
  }
}
