/**
 * The checkout side of billing/views.py: the cart page total (`cart_view`)
 * and the three ways of starting a payment session (`create_product_checkout`,
 * `create_cart_checkout`, `create_subscription_checkout`). Creating the
 * session at the payment provider is not modelled: a successful checkout
 * yields the request that would be sent, and nothing is stored locally.
 */
module Checkout {
  import opened Wrappers
  import Text
  import Money
  import Cart
  import Catalog
  import Accounts
  import CartMetadata

  /** The settings the views read. An empty `stripeSecretKey` is "not configured". */
  datatype Settings = Settings(
    stripeSecretKey: string,
    webhookSecret: string,
    defaultCurrency: string,
    proPlanPrice: Money.DecimalValue,
    subscriptionPriceId: string)

  /** `product.description_en[:200]`. */
  const DescriptionLimit: nat := 200

  const PaymentMode: string := "payment"
  const SubscriptionMode: string := "subscription"
  const ProPlanName: string := "Pro Plan"
  const ProPlanInterval: string := "month"

  datatype LineItem =
    | ProductLine(currency: string, name: string, description: string, unitAmount: int, quantity: nat)
    | PlanByPriceId(priceId: string, quantity: nat)
    | PlanInline(currency: string, name: string, interval: string, unitAmount: int, quantity: nat)

  datatype SessionRequest = SessionRequest(
    mode: string,
    customerEmail: string,
    lineItems: seq<LineItem>,
    metadata: map<string, string>)

  datatype CheckoutOutcome =
    | MissingSecretKey
    | EmailNotVerified
    | ProductNotFound
    | CartEmpty
    | NoValidItems
    | Redirect(request: SessionRequest)

  predicate IsPro(u: Accounts.User) {
    u.userType == Accounts.Pro
  }

  /** `str(flag).lower()`. */
  function BoolText(b: bool): string {
    if b then "true" else "false"
  }

  /** The ORM lookup `filter(id__in=..., active=True)`: a product the cart can still buy. */
  predicate Live(products: map<nat, Catalog.Product>, productId: nat) {
    productId in products && products[productId].active
  }

  /**
   * The line item for `quantity` units of a product: unit amount in cents
   * after the pro discount, and the description cut to 200 characters.
   */
  function ProductLineItem(p: Catalog.Product, isPro: bool, currency: string, quantity: nat): (item: LineItem)
    ensures item.ProductLine? && item.quantity == quantity && item.currency == currency
    ensures item.unitAmount == Money.UnitPrice(p.priceCents, isPro)
    ensures item.name == p.nameEn && item.description == Text.Truncate(p.descriptionEn, DescriptionLimit)
    ensures |item.description| <= DescriptionLimit && item.description <= p.descriptionEn
  {
    ProductLine(currency, p.nameEn, Text.Truncate(p.descriptionEn, DescriptionLimit),
                Money.UnitPrice(p.priceCents, isPro), quantity)
  }

  // ---------------------------------------------------------------- cart page

  datatype CartPageLine = CartPageLine(product: Catalog.Product, quantity: nat, price: int, lineTotal: int)

  /** The cart entries whose product is still live, in cart order. */
  function LiveEntries(items: seq<(nat, nat)>, products: map<nat, Catalog.Product>): (entries: seq<(nat, nat)>)
    ensures |entries| <= |items|
    ensures forall i :: 0 <= i < |entries| ==> Live(products, entries[i].0)
  {
    if |items| == 0 then []
    else
      var last := items[|items| - 1];
      LiveEntries(items[..|items| - 1], products) + (if Live(products, last.0) then [last] else [])
  }

  /** The sum of price times quantity over the given entries. */
  function EntriesTotal(entries: seq<(nat, nat)>, products: map<nat, Catalog.Product>): int
    requires forall i :: 0 <= i < |entries| ==> entries[i].0 in products
  {
    if |entries| == 0 then 0
    else
      var last := entries[|entries| - 1];
      EntriesTotal(entries[..|entries| - 1], products) + products[last.0].priceCents * last.1
  }

  function PageLines(entries: seq<(nat, nat)>, products: map<nat, Catalog.Product>): (lines: seq<CartPageLine>)
    requires forall i :: 0 <= i < |entries| ==> entries[i].0 in products
    ensures |lines| == |entries|
  {
    seq(|entries|, i requires 0 <= i < |entries| =>
      var p := products[entries[i].0];
      CartPageLine(p, entries[i].1, p.priceCents, p.priceCents * entries[i].1))
  }

  /** The live entries of one more cart item. */
  lemma LiveEntriesExtend(items: seq<(nat, nat)>, products: map<nat, Catalog.Product>, i: nat)
    requires i < |items|
    ensures LiveEntries(items[..i + 1], products)
         == LiveEntries(items[..i], products) + (if Live(products, items[i].0) then [items[i]] else [])
  {
    assert items[..i + 1][..i] == items[..i];
  }

  /** One more live entry adds its page line and its line total. */
  lemma PageStepAdds(entries: seq<(nat, nat)>, products: map<nat, Catalog.Product>, e: (nat, nat))
    requires forall i :: 0 <= i < |entries| ==> entries[i].0 in products
    requires e.0 in products
    ensures PageLines(entries + [e], products)
         == PageLines(entries, products) + [CartPageLine(products[e.0], e.1, products[e.0].priceCents, products[e.0].priceCents * e.1)]
    ensures EntriesTotal(entries + [e], products) == EntriesTotal(entries, products) + products[e.0].priceCents * e.1
  {
    assert (entries + [e])[..|entries|] == entries;
  }

  /**
   * `cart_view`: one line per cart entry whose product is live, skipping the
   * rest; the total is the sum of the line totals, and the pro total is that
   * sum discounted and rounded once, not per line.
   */
  method CartView(user: Accounts.User, cart: Cart.CartValue, products: map<nat, Catalog.Product>)
    returns (lines: seq<CartPageLine>, total: int, discountTotal: int, isPro: bool)
    requires Cart.WellFormed(cart)
    ensures isPro == IsPro(user)
    ensures lines == PageLines(LiveEntries(Cart.Items(cart), products), products)
    ensures total == EntriesTotal(LiveEntries(Cart.Items(cart), products), products)
    ensures discountTotal == if isPro then Money.ProPrice(total) else total
  {
    var items := Cart.Items(cart);
    lines, total := [], 0;
    isPro := IsPro(user);
    var i := 0;
    while i < |items|
      invariant 0 <= i <= |items|
      invariant lines == PageLines(LiveEntries(items[..i], products), products)
      invariant total == EntriesTotal(LiveEntries(items[..i], products), products)
    {
      var (pid, qty) := items[i];
      ghost var before := LiveEntries(items[..i], products);
      LiveEntriesExtend(items, products, i);
      if Live(products, pid) {
        var product := products[pid];
        var lineTotal := product.priceCents * qty;
        PageStepAdds(before, products, (pid, qty));
        total := total + lineTotal;
        lines := lines + [CartPageLine(product, qty, product.priceCents, lineTotal)];
      } else {
        assert before + [] == before;
      }
      i := i + 1;
    }
    assert items[..i] == items;
    discountTotal := if isPro then Money.ProPrice(total) else total;
  }

  /** An entry is kept exactly when it is in the cart and its product is live. */
  lemma {:induction false} LiveEntriesFilter(items: seq<(nat, nat)>, products: map<nat, Catalog.Product>)
    ensures forall e :: e in LiveEntries(items, products) <==> e in items && Live(products, e.0)
    decreases |items|
  {
    if |items| > 0 {
      var prefix := items[..|items| - 1];
      LiveEntriesFilter(prefix, products);
      assert items == prefix + [items[|items| - 1]];
    }
  }

  /** Nothing is kept exactly when no cart entry names a live product. */
  lemma LiveEntriesEmpty(items: seq<(nat, nat)>, products: map<nat, Catalog.Product>)
    ensures LiveEntries(items, products) == [] <==> forall i :: 0 <= i < |items| ==> !Live(products, items[i].0)
  {
    LiveEntriesFilter(items, products);
    var entries := LiveEntries(items, products);
    if entries != [] {
      assert entries[0] in entries;
    }
    if exists i :: 0 <= i < |items| && Live(products, items[i].0) {
      var i :| 0 <= i < |items| && Live(products, items[i].0);
      assert items[i] in items;
    }
  }

  // ---------------------------------------------------------------- checkouts

  function LineItemsFor(entries: seq<(nat, nat)>, products: map<nat, Catalog.Product>, isPro: bool, currency: string)
    : (items: seq<LineItem>)
    requires forall i :: 0 <= i < |entries| ==> entries[i].0 in products
    ensures |items| == |entries|
    ensures forall i :: 0 <= i < |entries| ==>
      items[i] == ProductLineItem(products[entries[i].0], isPro, currency, entries[i].1)
  {
    seq(|entries|, i requires 0 <= i < |entries| =>
      ProductLineItem(products[entries[i].0], isPro, currency, entries[i].1))
  }

  function CartCheckoutMetadata(userId: nat, entries: seq<(nat, nat)>, isPro: bool): map<string, string> {
    map["user_id" := Text.NatToString(userId),
        "type" := "product_cart",
        "cart" := CartMetadata.Encode(entries),
        "discount_applied" := BoolText(isPro)]
  }

  /**
   * The loop of `create_cart_checkout`: for each cart entry whose product is
   * live, one line item and one `pid:qty` entry, in cart order.
   */
  method CartLines(items: seq<(nat, nat)>, products: map<nat, Catalog.Product>, isPro: bool, currency: string)
    returns (lineItems: seq<LineItem>, cartEntries: seq<string>)
    ensures lineItems == LineItemsFor(LiveEntries(items, products), products, isPro, currency)
    ensures cartEntries == CartMetadata.EntryTexts(LiveEntries(items, products))
  {
    lineItems, cartEntries := [], [];
    ghost var kept: seq<(nat, nat)> := [];
    var i := 0;
    while i < |items|
      invariant 0 <= i <= |items|
      invariant kept == LiveEntries(items[..i], products)
      invariant lineItems == LineItemsFor(kept, products, isPro, currency)
      invariant cartEntries == CartMetadata.EntryTexts(kept)
    {
      var (pid, qty) := items[i];
      assert items[..i + 1][..i] == items[..i];
      if Live(products, pid) {
        lineItems := lineItems + [ProductLineItem(products[pid], isPro, currency, qty)];
        cartEntries := cartEntries + [CartMetadata.EntryText((pid, qty))];
        kept := kept + [(pid, qty)];
      }
      i := i + 1;
    }
    assert items[..i] == items;
  }

  /**
   * `create_cart_checkout`: an empty cart is refused before anything else,
   * then an unverified e-mail, then a missing payment key; entries whose
   * product is missing or inactive are dropped without error, and if none
   * is left no session is requested. Otherwise the session carries one
   * line per live entry, in cart order, at the per-unit discounted price,
   * and metadata naming the user, the kept entries and the discount flag.
   */
  method CreateCartCheckout(settings: Settings, user: Accounts.User, cart: Cart.CartValue, products: map<nat, Catalog.Product>)
    returns (r: CheckoutOutcome)
    requires Cart.WellFormed(cart)
    ensures cart.keys == [] ==> r == CartEmpty
    ensures cart.keys != [] && !Accounts.IsVerified(user) ==> r == EmailNotVerified
    ensures cart.keys != [] && Accounts.IsVerified(user) && settings.stripeSecretKey == "" ==> r == MissingSecretKey
    ensures cart.keys != [] && Accounts.IsVerified(user) && settings.stripeSecretKey != "" ==>
      var entries := LiveEntries(Cart.Items(cart), products);
      r == if entries == [] then NoValidItems
           else Redirect(SessionRequest(PaymentMode, user.email,
                  LineItemsFor(entries, products, IsPro(user), settings.defaultCurrency),
                  CartCheckoutMetadata(user.id, entries, IsPro(user))))
  {
    if cart.keys == [] {
      return CartEmpty;
    }
    if !Accounts.IsVerified(user) {
      return EmailNotVerified;
    }
    if settings.stripeSecretKey == "" {
      return MissingSecretKey;
    }
    var isPro := IsPro(user);
    var lineItems, cartEntries := CartLines(Cart.Items(cart), products, isPro, settings.defaultCurrency);
    if lineItems == [] {
      return NoValidItems;
    }
    var metadata := map["user_id" := Text.NatToString(user.id),
                        "type" := "product_cart",
                        "cart" := Text.Join(cartEntries, '|'),
                        "discount_applied" := BoolText(isPro)];
    r := Redirect(SessionRequest(PaymentMode, user.email, lineItems, metadata));
  }

  function ProductCheckoutMetadata(userId: nat, productId: nat, isPro: bool): map<string, string> {
    map["user_id" := Text.NatToString(userId),
        "product_id" := Text.NatToString(productId),
        "quantity" := "1",
        "discount_applied" := BoolText(isPro),
        "type" := "product"]
  }

  /**
   * `create_product_checkout`: a missing payment key first, then an
   * unverified e-mail, then a missing or inactive product (404); otherwise
   * one unit of the product at the per-unit discounted price.
   */
  function CreateProductCheckout(settings: Settings, user: Accounts.User, products: map<nat, Catalog.Product>, productId: nat)
    : (r: CheckoutOutcome)
    ensures settings.stripeSecretKey == "" ==> r == MissingSecretKey
    ensures settings.stripeSecretKey != "" && !Accounts.IsVerified(user) ==> r == EmailNotVerified
    ensures settings.stripeSecretKey != "" && Accounts.IsVerified(user) && !Live(products, productId) ==> r == ProductNotFound
    ensures r.Redirect? <==> settings.stripeSecretKey != "" && Accounts.IsVerified(user) && Live(products, productId)
    ensures r.Redirect? ==> r.request.mode == PaymentMode && r.request.customerEmail == user.email
    ensures r.Redirect? ==>
      r.request.lineItems == [ProductLineItem(products[productId], IsPro(user), settings.defaultCurrency, 1)]
    ensures r.Redirect? ==> r.request.metadata == ProductCheckoutMetadata(user.id, productId, IsPro(user))
  {
    if settings.stripeSecretKey == "" then MissingSecretKey
    else if !Accounts.IsVerified(user) then EmailNotVerified
    else if !Live(products, productId) then ProductNotFound
    else
      var isPro := IsPro(user);
      Redirect(SessionRequest(PaymentMode, user.email,
        [ProductLineItem(products[productId], isPro, settings.defaultCurrency, 1)],
        ProductCheckoutMetadata(user.id, productId, isPro)))
  }

  function SubscriptionCheckoutMetadata(userId: nat, priceId: string): map<string, string> {
    map["user_id" := Text.NatToString(userId),
        "price_id" := priceId,
        "type" := "subscription"]
  }

  /**
   * `create_subscription_checkout`: a missing payment key first, then an
   * unverified e-mail; otherwise one monthly plan, by the configured price
   * id when there is one and else inline from the configured plan price.
   */
  function CreateSubscriptionCheckout(settings: Settings, user: Accounts.User): (r: CheckoutOutcome)
    ensures settings.stripeSecretKey == "" ==> r == MissingSecretKey
    ensures settings.stripeSecretKey != "" && !Accounts.IsVerified(user) ==> r == EmailNotVerified
    ensures r.Redirect? <==> settings.stripeSecretKey != "" && Accounts.IsVerified(user)
    ensures r.Redirect? ==> r.request.mode == SubscriptionMode && |r.request.lineItems| == 1
    ensures r.Redirect? && settings.subscriptionPriceId != "" ==>
      r.request.lineItems[0] == PlanByPriceId(settings.subscriptionPriceId, 1)
    ensures r.Redirect? && settings.subscriptionPriceId == "" ==>
      r.request.lineItems[0] == PlanInline(settings.defaultCurrency, ProPlanName, ProPlanInterval,
                                           Money.MinorUnits(settings.proPlanPrice), 1)
    ensures r.Redirect? ==> r.request.metadata == SubscriptionCheckoutMetadata(user.id, settings.subscriptionPriceId)
  {
    if settings.stripeSecretKey == "" then MissingSecretKey
    else if !Accounts.IsVerified(user) then EmailNotVerified
    else
      var line :=
        if settings.subscriptionPriceId != "" then PlanByPriceId(settings.subscriptionPriceId, 1)
        else PlanInline(settings.defaultCurrency, ProPlanName, ProPlanInterval, Money.MinorUnits(settings.proPlanPrice), 1);
      Redirect(SessionRequest(SubscriptionMode, user.email, [line],
        SubscriptionCheckoutMetadata(user.id, settings.subscriptionPriceId)))
  }

  // ---------------------------------------------------------------- prices on the page and at the provider

  /** What the provider charges for a list of line items: unit amount times quantity, summed. */
  function Charged(items: seq<LineItem>): int {
    if |items| == 0 then 0
    else
      var last := items[|items| - 1];
      Charged(items[..|items| - 1]) + (if last.ProductLine? then last.unitAmount * last.quantity else 0)
  }

  /** A basic user is charged exactly the total the cart page shows. */
  lemma {:induction false} BasicChargeIsPageTotal(entries: seq<(nat, nat)>, products: map<nat, Catalog.Product>,
                                                  currency: string)
    requires forall i :: 0 <= i < |entries| ==> entries[i].0 in products
    ensures Charged(LineItemsFor(entries, products, false, currency)) == EntriesTotal(entries, products)
    decreases |entries|
  {
    if |entries| > 0 {
      var prefix := entries[..|entries| - 1];
      BasicChargeIsPageTotal(prefix, products, currency);
      assert LineItemsFor(entries, products, false, currency)[..|entries| - 1]
          == LineItemsFor(prefix, products, false, currency);
    }
  }

  /**
   * Two units of product A at 10.00 and one of product B at 5.00 total
   * 25.00 on the page, 20.00 for a pro member; the per-unit prices a pro
   * member is charged at the provider come to the same 20.00.
   */
  lemma TwoTensAndAFive()
    ensures var a := Catalog.Product("a", "A", "", "", "", 1000, "", "c", true, false, 0);
      var b := Catalog.Product("b", "B", "", "", "", 500, "", "c", true, false, 0);
      var products := map[1 := a, 2 := b];
      var cart := Cart.CartValue([1, 2], map[1 := 2, 2 := 1]);
      var entries := LiveEntries(Cart.Items(cart), products);
      && EntriesTotal(entries, products) == 2500
      && Money.ProPrice(EntriesTotal(entries, products)) == 2000
      && Charged(LineItemsFor(entries, products, true, "usd")) == 2000
  {
    var a := Catalog.Product("a", "A", "", "", "", 1000, "", "c", true, false, 0);
    var b := Catalog.Product("b", "B", "", "", "", 500, "", "c", true, false, 0);
    var products := map[1 := a, 2 := b];
    var cart := Cart.CartValue([1, 2], map[1 := 2, 2 := 1]);
    var items := Cart.Items(cart);
    assert items == [(1, 2), (2, 1)];
    assert items[..1] == [(1, 2)];
    assert LiveEntries(items, products) == [(1, 2), (2, 1)];
    assert Money.ProPrice(1000) == 800 && Money.ProPrice(500) == 400 && Money.ProPrice(2500) == 2000;
    var entries: seq<(nat, nat)> := [(1, 2), (2, 1)];
    var first: seq<(nat, nat)> := [(1, 2)];
    assert entries[..1] == first && first[..0] == [];
    assert EntriesTotal([(1, 2)], products) == 2000;
    var lines := LineItemsFor(entries, products, true, "usd");
    assert lines[..1] == LineItemsFor([(1, 2)], products, true, "usd");
    assert Charged(lines[..1]) == 1600;
  }

  /**
   * The pro total on the cart page is rounded once, the charge per unit, so
   * the two can differ: two units at 0.03 show 0.05 (0.048 rounded) but are
   * charged 2 x 0.02 = 0.04.
   */
  lemma ProPageTotalCanDifferFromCharge()
    ensures var p := Catalog.Product("p", "P", "", "", "", 3, "", "c", true, false, 0);
      var products := map[1 := p];
      var entries := [(1, 2)];
      && Money.ProPrice(EntriesTotal(entries, products)) == 5
      && Charged(LineItemsFor(entries, products, true, "usd")) == 4
  {
    var p := Catalog.Product("p", "P", "", "", "", 3, "", "c", true, false, 0);
    var products := map[1 := p];
    assert Money.ProPrice(6) == 5 && Money.ProPrice(3) == 2;
    assert LineItemsFor([(1, 2)], products, true, "usd")[..0] == [];
  }
}
