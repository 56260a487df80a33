/**
 * The per-browser session the views read and write: the cart under key
 * "cart", the pending registration under "pending_registration_id", and the
 * logged-in user that `login`/`logout` set and clear.
 */
module Sessions {
  import opened Wrappers
  import Cart

  class Session {
    var cartKeys: seq<nat>
    var cartQty: map<nat, nat>
    var pendingRegistrationId: Option<nat>
    var authUserId: Option<nat>

    ghost predicate Valid()
      reads this
    {
      Cart.WellFormed(Cart.CartValue(cartKeys, cartQty))
    }

    /** `_get_cart`: the stored cart, or an empty one. */
    function CartValue(): (c: Cart.CartValue)
      reads this
      requires Valid()
      ensures Cart.WellFormed(c)
    {
      Cart.CartValue(cartKeys, cartQty)
    }

    constructor ()
      ensures Valid()
      ensures CartValue() == Cart.Empty
      ensures pendingRegistrationId == None && authUserId == None
    {
      cartKeys, cartQty := [], map[];
      pendingRegistrationId, authUserId := None, None;
    }

    /** `_save_cart`. */
    method SaveCart(c: Cart.CartValue)
      requires Cart.WellFormed(c)
      modifies this
      ensures Valid() && CartValue() == c
      ensures pendingRegistrationId == old(pendingRegistrationId) && authUserId == old(authUserId)
    {
      cartKeys, cartQty := c.keys, c.qty;
    }

    /** `request.session["pending_registration_id"] = id`. */
    method SetPendingRegistration(id: nat)
      modifies this
      ensures pendingRegistrationId == Some(id)
      ensures cartKeys == old(cartKeys) && cartQty == old(cartQty) && authUserId == old(authUserId)
    {
      pendingRegistrationId := Some(id);
    }

    /** `request.session.pop("pending_registration_id", None)`. */
    method PopPendingRegistration()
      modifies this
      ensures pendingRegistrationId == None
      ensures cartKeys == old(cartKeys) && cartQty == old(cartQty) && authUserId == old(authUserId)
    {
      pendingRegistrationId := None;
    }

    /** `logout(request)`: flushes every key of the session. */
    method Flush()
      modifies this
      ensures Valid() && CartValue() == Cart.Empty
      ensures pendingRegistrationId == None && authUserId == None
    {
      cartKeys, cartQty := [], map[];
      pendingRegistrationId, authUserId := None, None;
    }

    /**
     * `login(request, user)`: a session that belongs to a different user is
     * flushed first; otherwise its data is kept.
     */
    method Login(userId: nat)
      requires Valid()
      modifies this
      ensures Valid() && authUserId == Some(userId)
      ensures old(authUserId).Some? && old(authUserId) != Some(userId) ==>
        CartValue() == Cart.Empty && pendingRegistrationId == None
      ensures old(authUserId).None? || old(authUserId) == Some(userId) ==>
        CartValue() == old(CartValue()) && pendingRegistrationId == old(pendingRegistrationId)
    {
      if authUserId.Some? && authUserId != Some(userId) {
        Flush();
      }
      authUserId := Some(userId);
    }
  }
}
