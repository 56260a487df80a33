/**
 * The session cart (billing/views.py, `_get_cart`, `add_to_cart`,
 * `remove_from_cart`): a dict from product id to quantity. Python dicts keep
 * insertion order, and checkout walks the cart in that order, so a cart is
 * its keys in insertion order together with their quantities. Keys are
 * `str(product_id)` for an integer route parameter; the model keeps the
 * integer itself.
 */
module Cart {

  datatype CartValue = CartValue(keys: seq<nat>, qty: map<nat, nat>)

  predicate Distinct(keys: seq<nat>) {
    forall i, j :: 0 <= i < j < |keys| ==> keys[i] != keys[j]
  }

  /** The key order and the quantity map describe the same dict. */
  predicate WellFormed(c: CartValue) {
    Distinct(c.keys) && c.qty.Keys == set k | k in c.keys
  }

  /** `_get_cart` on a session without a cart. */
  const Empty: CartValue := CartValue([], map[])

  /** `cart.get(str(product_id), 0)`. */
  function QuantityOf(c: CartValue, productId: nat): nat {
    if productId in c.qty then c.qty[productId] else 0
  }

  /** `cart.items()`: (product id, quantity) pairs in insertion order. */
  function Items(c: CartValue): (items: seq<(nat, nat)>)
    requires WellFormed(c)
    ensures |items| == |c.keys|
    ensures forall i :: 0 <= i < |items| ==> items[i] == (c.keys[i], c.qty[c.keys[i]])
  {
    seq(|c.keys|, i requires 0 <= i < |c.keys| => (c.keys[i], c.qty[c.keys[i]]))
  }

  /** The sum of `qty` over `keys`. */
  function SumOver(keys: seq<nat>, qty: map<nat, nat>): nat
    requires forall x :: x in keys ==> x in qty
  {
    if |keys| == 0 then 0 else qty[keys[0]] + SumOver(keys[1..], qty)
  }

  /** `sum(cart.values())`: the number of units in the cart. */
  function UnitCount(c: CartValue): nat
    requires WellFormed(c)
  {
    SumOver(c.keys, c.qty)
  }

  /** `keys` without `k`, order kept. */
  function Without(keys: seq<nat>, k: nat): (r: seq<nat>)
    ensures forall x :: x in r <==> x in keys && x != k
    ensures Distinct(keys) ==> Distinct(r)
    ensures k !in keys ==> r == keys
  {
    if |keys| == 0 then []
    else if keys[0] == k then Without(keys[1..], k)
    else
      assert Distinct(keys) ==> keys[0] !in keys[1..];
      [keys[0]] + Without(keys[1..], k)
  }

  /**
   * `cart[str(pid)] = cart.get(str(pid), 0) + 1`: the product's quantity goes
   * up by one, starting from 0; a new key goes to the end, an existing one
   * keeps its place.
   */
  function Add(c: CartValue, productId: nat): (r: CartValue)
    requires WellFormed(c)
    ensures WellFormed(r)
    ensures QuantityOf(r, productId) == QuantityOf(c, productId) + 1
    ensures forall k :: k != productId ==> QuantityOf(r, k) == QuantityOf(c, k)
    ensures r.keys == if productId in c.keys then c.keys else c.keys + [productId]
  {
    var keys := if productId in c.keys then c.keys else c.keys + [productId];
    CartValue(keys, c.qty[productId := QuantityOf(c, productId) + 1])
  }

  /** `cart.pop(str(pid))` when the key is there; nothing otherwise. */
  function Remove(c: CartValue, productId: nat): (r: CartValue)
    requires WellFormed(c)
    ensures WellFormed(r)
    ensures QuantityOf(r, productId) == 0 && productId !in r.keys
    ensures forall k :: k != productId ==> QuantityOf(r, k) == QuantityOf(c, k)
    ensures productId !in c.keys ==> r == c
  {
    if productId in c.keys then CartValue(Without(c.keys, productId), c.qty - {productId})
    else c
  }

  lemma {:induction false} SumOverAgrees(keys: seq<nat>, q1: map<nat, nat>, q2: map<nat, nat>)
    requires forall x :: x in keys ==> x in q1 && x in q2 && q1[x] == q2[x]
    ensures SumOver(keys, q1) == SumOver(keys, q2)
  {
    if |keys| > 0 {
      SumOverAgrees(keys[1..], q1, q2);
    }
  }

  lemma {:induction false} SumOverAppend(keys: seq<nat>, k: nat, qty: map<nat, nat>)
    requires forall x :: x in keys ==> x in qty
    requires k in qty
    ensures SumOver(keys + [k], qty) == SumOver(keys, qty) + qty[k]
  {
    if |keys| > 0 {
      assert (keys + [k])[1..] == keys[1..] + [k];
      SumOverAppend(keys[1..], k, qty);
    }
  }

  lemma {:induction false} SumOverBump(keys: seq<nat>, qty: map<nat, nat>, k: nat, v: nat)
    requires Distinct(keys) && k in keys
    requires forall x :: x in keys ==> x in qty
    ensures SumOver(keys, qty[k := v]) == SumOver(keys, qty) - qty[k] + v
  {
    if keys[0] == k {
      assert k !in keys[1..];
      SumOverAgrees(keys[1..], qty[k := v], qty);
    } else {
      SumOverBump(keys[1..], qty, k, v);
    }
  }

  lemma {:induction false} SumOverWithout(keys: seq<nat>, qty: map<nat, nat>, k: nat)
    requires Distinct(keys) && k in keys
    requires forall x :: x in keys ==> x in qty
    ensures SumOver(Without(keys, k), qty - {k}) == SumOver(keys, qty) - qty[k]
  {
    if keys[0] == k {
      assert k !in keys[1..];
      assert Without(keys[1..], k) == keys[1..];
      SumOverAgrees(keys[1..], qty - {k}, qty);
    } else {
      SumOverWithout(keys[1..], qty, k);
    }
  }

  /** Each add puts exactly one more unit in the cart. */
  lemma AddCountsOneUnit(c: CartValue, productId: nat)
    requires WellFormed(c)
    ensures UnitCount(Add(c, productId)) == UnitCount(c) + 1
  {
    var r := Add(c, productId);
    if productId in c.keys {
      SumOverBump(c.keys, c.qty, productId, c.qty[productId] + 1);
    } else {
      SumOverAgrees(c.keys, r.qty, c.qty);
      SumOverAppend(c.keys, productId, r.qty);
    }
  }

  /** Removing a product takes all of its units out, not one. */
  lemma RemoveCountsAllUnits(c: CartValue, productId: nat)
    requires WellFormed(c)
    ensures UnitCount(Remove(c, productId)) == UnitCount(c) - QuantityOf(c, productId)
  {
    if productId in c.keys {
      SumOverWithout(c.keys, c.qty, productId);
    }
  }

  /** Remove deletes the key outright: however many adds came before, the result is the same. */
  lemma RemoveUndoesAdds(c: CartValue, productId: nat)
    requires WellFormed(c)
    ensures Remove(Add(c, productId), productId) == Remove(c, productId)
  {
    var a := Add(c, productId);
    if productId in c.keys {
      assert a.qty - {productId} == c.qty - {productId};
    } else {
      assert Without(c.keys + [productId], productId) == c.keys by {
        WithoutAppend(c.keys, productId);
      }
      assert a.qty - {productId} == c.qty;
    }
  }

  lemma {:induction false} WithoutAppend(keys: seq<nat>, k: nat)
    requires k !in keys
    ensures Without(keys + [k], k) == keys
  {
    if |keys| > 0 {
      assert (keys + [k])[1..] == keys[1..] + [k];
      WithoutAppend(keys[1..], k);
    }
  }
}
