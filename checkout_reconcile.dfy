/**
 * The checkout views and the reconciler together: the metadata a checkout
 * writes is read back by `_handle_checkout_completed` without error, and
 * the purchases it records carry exactly the quantities and per-unit prices
 * of the line items the customer was charged for.
 */
module CheckoutReconcile {
  import opened Wrappers
  import Text
  import Money
  import Cart
  import Catalog
  import Accounts
  import BillingModels
  import CartMetadata
  import Checkout
  import opened Reconcile

  predicate DistinctProducts(entries: seq<(nat, nat)>) {
    forall i, j :: 0 <= i < j < |entries| ==> entries[i].0 != entries[j].0
  }

  function Fragments(entries: seq<(nat, nat)>): (fragments: seq<seq<string>>)
    ensures |fragments| == |entries|
  {
    seq(|entries|, i requires 0 <= i < |entries| => [Text.NatToString(entries[i].0), Text.NatToString(entries[i].1)])
  }

  function Keys(sessionId: string, entries: seq<(nat, nat)>): set<PurchaseKey> {
    set i | 0 <= i < |entries| :: BillingModels.PurchaseKey(sessionId, entries[i].0)
  }

  /** The cart entries a cart checkout keeps name each product at most once. */
  lemma {:induction false} LiveEntriesDistinct(cart: Cart.CartValue, products: map<nat, Catalog.Product>)
    requires Cart.WellFormed(cart)
    ensures DistinctProducts(Checkout.LiveEntries(Cart.Items(cart), products))
  {
    var items := Cart.Items(cart);
    assert DistinctProducts(items);
    PrefixDistinct(items, products, |items|);
    assert items[..|items|] == items;
  }

  lemma {:induction false} LiveEntriesMembers(items: seq<(nat, nat)>, products: map<nat, Catalog.Product>)
    ensures forall e :: e in Checkout.LiveEntries(items, products) ==> e in items
    decreases |items|
  {
    if |items| > 0 {
      LiveEntriesMembers(items[..|items| - 1], products);
    }
  }

  lemma {:induction false} PrefixDistinct(items: seq<(nat, nat)>, products: map<nat, Catalog.Product>, n: nat)
    requires n <= |items| && DistinctProducts(items)
    ensures DistinctProducts(Checkout.LiveEntries(items[..n], products))
    decreases n
  {
    if n > 0 {
      var prefix := items[..n][..n - 1];
      assert prefix == items[..n - 1];
      PrefixDistinct(items, products, n - 1);
      var before := Checkout.LiveEntries(prefix, products);
      LiveEntriesMembers(prefix, products);
      forall e | e in before
        ensures e.0 != items[n - 1].0
      {
        var j :| 0 <= j < n - 1 && prefix[j] == e;
      }
    }
  }

  /** One encoded entry is one purchase write. */
  lemma FragmentWrites(products: map<nat, Catalog.Product>, ctx: PurchaseContext, e: (nat, nat))
    requires ctx.sessionId.Some? && e.0 in products
    ensures FragmentStep(products, ctx, [Text.NatToString(e.0), Text.NatToString(e.1)])
         == PurchaseStep(products, ctx, e.0, e.1 as int)
    ensures PurchaseStep(products, ctx, e.0, e.1 as int).Write?
  {
    Text.ParseNatToString(e.0);
    Text.ParseNatToString(e.1);
  }

  lemma KeysCons(sessionId: string, entries: seq<(nat, nat)>)
    requires |entries| > 0
    ensures Keys(sessionId, entries) == {BillingModels.PurchaseKey(sessionId, entries[0].0)} + Keys(sessionId, entries[1..])
  {
    var rest := entries[1..];
    forall x | x in Keys(sessionId, entries)
      ensures x in {BillingModels.PurchaseKey(sessionId, entries[0].0)} + Keys(sessionId, rest)
    {
      var j :| 0 <= j < |entries| && x == BillingModels.PurchaseKey(sessionId, entries[j].0);
      if j > 0 {
        assert x == BillingModels.PurchaseKey(sessionId, rest[j - 1].0);
      }
    }
    forall x | x in Keys(sessionId, rest) ensures x in Keys(sessionId, entries) {
      var j :| 0 <= j < |rest| && x == BillingModels.PurchaseKey(sessionId, rest[j].0);
      assert x == BillingModels.PurchaseKey(sessionId, entries[j + 1].0);
    }
  }

  /** With distinct products, the first entry's key is not among the others'. */
  lemma FirstKeyFresh(sessionId: string, entries: seq<(nat, nat)>)
    requires |entries| > 0 && DistinctProducts(entries)
    ensures BillingModels.PurchaseKey(sessionId, entries[0].0) !in Keys(sessionId, entries[1..])
  {
  }

  /** What reading back one entry writes. */
  function EntryValues(products: map<nat, Catalog.Product>, ctx: PurchaseContext, e: (nat, nat)): PurchaseValues
    requires ctx.sessionId.Some? && e.0 in products
  {
    PurchaseStep(products, ctx, e.0, e.1 as int).values
  }

  /** The first entry's write, then the rest's. */
  lemma CartWritesCons(products: map<nat, Catalog.Product>, entries: seq<(nat, nat)>, ctx: PurchaseContext)
    requires ctx.sessionId.Some? && |entries| > 0 && entries[0].0 in products
    ensures var rest := CartWrites(products, Fragments(entries[1..]), ctx);
      CartWrites(products, Fragments(entries), ctx)
        == (map[BillingModels.PurchaseKey(ctx.sessionId.value, entries[0].0) := EntryValues(products, ctx, entries[0])] + rest.0,
            rest.1)
  {
    var e := entries[0];
    assert Fragments(entries)[1..] == Fragments(entries[1..]);
    assert Fragments(entries)[0] == [Text.NatToString(e.0), Text.NatToString(e.1)];
    FragmentWrites(products, ctx, e);
  }

  /** Reading back a list of distinct, existing entries writes one row per entry and raises nothing. */
  lemma {:induction false} CartWritesOfEntries(products: map<nat, Catalog.Product>, entries: seq<(nat, nat)>,
                                               ctx: PurchaseContext)
    requires ctx.sessionId.Some?
    requires forall i :: 0 <= i < |entries| ==> entries[i].0 in products
    requires DistinctProducts(entries)
    ensures var w := CartWrites(products, Fragments(entries), ctx);
      && !w.1
      && w.0.Keys == Keys(ctx.sessionId.value, entries)
      && forall i :: 0 <= i < |entries| ==>
           w.0[BillingModels.PurchaseKey(ctx.sessionId.value, entries[i].0)] == EntryValues(products, ctx, entries[i])
    decreases |entries|
  {
    var sid := ctx.sessionId.value;
    if |entries| > 0 {
      var e := entries[0];
      var rest := entries[1..];
      CartWritesCons(products, entries, ctx);
      CartWritesOfEntries(products, rest, ctx);
      KeysCons(sid, entries);
      FirstKeyFresh(sid, entries);
      var w := CartWrites(products, Fragments(entries), ctx).0;
      forall i | 0 <= i < |entries|
        ensures w[BillingModels.PurchaseKey(sid, entries[i].0)] == EntryValues(products, ctx, entries[i])
      {
        if i > 0 {
          assert entries[i] == rest[i - 1];
        }
      }
    } else {
      assert Keys(sid, entries) == {};
    }
  }

  lemma DecodeEmpty()
    ensures CartMetadata.Decode("") == []
  {
    assert Text.Split("", '|') == [""];
  }

  /** An encoded cart reads back as its fragments. */
  lemma DecodeEncode(entries: seq<(nat, nat)>)
    ensures CartMetadata.Decode(CartMetadata.Encode(entries)) == Fragments(entries)
    ensures |entries| > 0 ==> CartMetadata.Encode(entries) != ""
  {
    CartMetadata.RoundTrip(entries);
    DecodeEmpty();
  }

  /** The cart metadata a checkout writes takes the cart branch and reads back as its entries. */
  lemma CartCompletionReadsEntries(t: Tables, userId: nat, entries: seq<(nat, nat)>, isPro: bool, s: EventObject,
                                   defaultCurrency: string, now: int)
    requires userId in t.users && entries != []
    requires s.metadata == Checkout.CartCheckoutMetadata(userId, entries, isPro) && s.mode == Some("payment")
    ensures ContextOf(s, userId, defaultCurrency).discount == isPro
    ensures CheckoutCompleted(t, s, defaultCurrency, now)
         == ApplyCart(t, Fragments(entries), ContextOf(s, userId, defaultCurrency), now)
  {
    Text.ParseNatToString(userId);
    assert LookupPk(t.users, Get(s.metadata, "user_id")) == Found(userId);
    DecodeEncode(entries);
    assert IsCartCompletion(s.metadata);
  }

  /** The cart loop over distinct, existing entries writes one row per entry over the old purchases. */
  lemma CartEntriesRecorded(t: Tables, entries: seq<(nat, nat)>, ctx: PurchaseContext, now: int)
    requires ctx.sessionId.Some? && DistinctProducts(entries)
    requires forall i :: 0 <= i < |entries| ==> entries[i].0 in t.products
    ensures var a := ApplyCart(t, Fragments(entries), ctx, now);
      var sid := ctx.sessionId.value;
      && !a.raised
      && a.tables.purchases.Keys == t.purchases.Keys + Keys(sid, entries)
      && (forall k :: k in t.purchases && k !in Keys(sid, entries) ==> a.tables.purchases[k] == t.purchases[k])
      && forall i :: 0 <= i < |entries| ==>
           var row := a.tables.purchases[BillingModels.PurchaseKey(sid, entries[i].0)];
           PurchaseRow(EntryValues(t.products, ctx, entries[i]), row.createdAt) == row
  {
    CartWritesOfEntries(t.products, entries, ctx);
    ApplyCartIsOverlay(t, Fragments(entries), ctx, now);
  }

  /**
   * A completed cart checkout is recorded in full: no exception, one
   * purchase per line item under (session, product), each with the line
   * item's quantity, an amount equal to the line's unit amount times its
   * quantity, and the discount flag the checkout used; no other row is
   * touched.
   */
  lemma CartCheckoutIsRecorded(t: Tables, user: Accounts.User, cart: Cart.CartValue, s: EventObject,
                               defaultCurrency: string, currency: string, now: int)
    requires Cart.WellFormed(cart) && user.id in t.users
    requires var entries := Checkout.LiveEntries(Cart.Items(cart), t.products);
      entries != [] && s.metadata == Checkout.CartCheckoutMetadata(user.id, entries, Checkout.IsPro(user))
    requires s.mode == Some("payment") && s.id.Some?
    ensures var entries := Checkout.LiveEntries(Cart.Items(cart), t.products);
      var lines := Checkout.LineItemsFor(entries, t.products, Checkout.IsPro(user), currency);
      var a := CheckoutCompleted(t, s, defaultCurrency, now);
      && !a.raised
      && a.tables.purchases.Keys == t.purchases.Keys + Keys(s.id.value, entries)
      && (forall k :: k in t.purchases && k !in Keys(s.id.value, entries) ==> a.tables.purchases[k] == t.purchases[k])
      && forall i :: 0 <= i < |entries| ==>
           var row := a.tables.purchases[BillingModels.PurchaseKey(s.id.value, entries[i].0)];
           && row.userId == user.id && row.productId == entries[i].0
           && row.quantity == lines[i].quantity
           && row.amountCents == lines[i].unitAmount * lines[i].quantity
           && row.discountApplied == Checkout.IsPro(user)
  {
    var entries := Checkout.LiveEntries(Cart.Items(cart), t.products);
    var ctx := ContextOf(s, user.id, defaultCurrency);
    CartCompletionReadsEntries(t, user.id, entries, Checkout.IsPro(user), s, defaultCurrency, now);
    LiveEntriesDistinct(cart, t.products);
    CartEntriesRecorded(t, entries, ctx, now);
  }

  /** A completed single-product checkout records one unit at the price the line item charged. */
  lemma ProductCheckoutIsRecorded(t: Tables, user: Accounts.User, productId: nat, s: EventObject,
                                  defaultCurrency: string, currency: string, now: int)
    requires user.id in t.users && productId in t.products
    requires s.metadata == Checkout.ProductCheckoutMetadata(user.id, productId, Checkout.IsPro(user))
    requires s.mode == Some("payment") && s.id.Some?
    ensures var line := Checkout.ProductLineItem(t.products[productId], Checkout.IsPro(user), currency, 1);
      var k := BillingModels.PurchaseKey(s.id.value, productId);
      var a := CheckoutCompleted(t, s, defaultCurrency, now);
      && !a.raised
      && a.tables.purchases.Keys == t.purchases.Keys + {k}
      && (forall k' :: k' in t.purchases && k' != k ==> a.tables.purchases[k'] == t.purchases[k'])
      && a.tables.purchases[k].userId == user.id
      && a.tables.purchases[k].quantity == line.quantity
      && a.tables.purchases[k].amountCents == line.unitAmount * line.quantity
      && a.tables.purchases[k].discountApplied == Checkout.IsPro(user)
  {
    Text.ParseNatToString(user.id);
    Text.ParseNatToString(productId);
    assert Text.ParseInt("1") == Some(1);
    assert LookupPk(t.users, Get(s.metadata, "user_id")) == Found(user.id);
    assert !IsCartCompletion(s.metadata);
  }

  /**
   * A completed subscription checkout makes its buyer pro and records the
   * subscription as active with the configured price id.
   */
  lemma SubscriptionCheckoutIsRecorded(t: Tables, user: Accounts.User, priceId: string, s: EventObject,
                                       defaultCurrency: string, now: int)
    requires user.id in t.users
    requires s.metadata == Checkout.SubscriptionCheckoutMetadata(user.id, priceId)
    requires s.mode == Some("subscription") && s.subscription.Some? && s.subscription.value != ""
    ensures var a := CheckoutCompleted(t, s, defaultCurrency, now);
      var id := s.subscription.value;
      && !a.raised
      && a.tables.users[user.id].userType == Accounts.Pro
      && id in a.tables.subscriptions
      && a.tables.subscriptions[id].status == "active"
      && a.tables.subscriptions[id].userId == user.id
      && a.tables.subscriptions[id].priceId == priceId
      && a.tables.subscriptions[id].customerId == s.customer.GetOr("")
      && a.tables.subscriptions[id].currentPeriodEnd == TimestampToDt(s.expiresAt)
      && a.tables.purchases == t.purchases
  {
    Text.ParseNatToString(user.id);
    assert LookupPk(t.users, Get(s.metadata, "user_id")) == Found(user.id);
  }
}
