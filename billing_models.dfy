/**
 * The billing records (billing/models.py). Purchases are keyed by
 * (checkout session id, product id) and subscriptions by the provider's
 * subscription id; keeping each table as a map on that key is what makes
 * the key unique.
 */
module BillingModels {
  import opened Wrappers
  import Catalog

  const DefaultStatus: string := "incomplete"

  /** Model-level defaults of Purchase; the reconciler always supplies these fields itself. */
  const DefaultQuantity: nat := 1
  const DefaultCurrency: string := "usd"
  const DefaultDiscountApplied: bool := false

  /**
   * `createdAt` is set once, on insert (`auto_now_add`); `updatedAt` on every
   * save (`auto_now`). `currentPeriodEnd` is None for a NULL column.
   */
  datatype Subscription = Subscription(
    userId: nat,
    customerId: string,
    subscriptionId: string,
    priceId: string,
    status: string,
    currentPeriodEnd: Option<int>,
    createdAt: int,
    updatedAt: int)

  /**
   * `quantity` is a `PositiveIntegerField` (the database checks it is not
   * negative); `amountCents` is the 2-decimal `amount`; `createdAt` defaults
   * to the insert time and is not touched by later updates.
   */
  datatype Purchase = Purchase(
    userId: nat,
    productId: nat,
    quantity: nat,
    amountCents: int,
    currency: string,
    sessionId: string,
    paymentIntentId: string,
    discountApplied: bool,
    createdAt: int)

  /** `unique_together = ("stripe_checkout_session_id", "product")`. */
  datatype PurchaseKey = PurchaseKey(sessionId: string, productId: nat)

  ghost predicate PurchasesKeyed(purchases: map<PurchaseKey, Purchase>) {
    forall k :: k in purchases ==>
      purchases[k].sessionId == k.sessionId && purchases[k].productId == k.productId
  }

  ghost predicate SubscriptionsKeyed(subscriptions: map<string, Subscription>) {
    forall id :: id in subscriptions ==> subscriptions[id].subscriptionId == id
  }

  /** Some purchase refers to the product. */
  predicate Referenced(purchases: map<PurchaseKey, Purchase>, productId: nat) {
    exists k :: k in purchases && purchases[k].productId == productId
  }

  datatype DeleteError = ProtectedByPurchases

  /**
   * Deleting a product (`on_delete=models.PROTECT` on Purchase.product):
   * refused while any purchase refers to it; otherwise the row goes and
   * nothing else changes.
   */
  function DeleteProduct(products: map<nat, Catalog.Product>, purchases: map<PurchaseKey, Purchase>, productId: nat)
    : (r: Result<map<nat, Catalog.Product>, DeleteError>)
    ensures r.Err? <==> Referenced(purchases, productId)
    ensures r.Ok? ==> r.value == products - {productId}
  {
    if Referenced(purchases, productId) then Err(ProtectedByPurchases)
    else Ok(products - {productId})
  }

  /** A deletion that goes through leaves every purchase pointing at an existing product. */
  lemma DeleteProductKeepsPurchasesValid(products: map<nat, Catalog.Product>, purchases: map<PurchaseKey, Purchase>, productId: nat)
    requires forall k :: k in purchases ==> purchases[k].productId in products
    ensures var r := DeleteProduct(products, purchases, productId);
      r.Ok? ==> forall k :: k in purchases ==> purchases[k].productId in r.value
  {
  }

  /** Every product's category exists. */
  ghost predicate ForeignKeysHold(categories: map<string, Catalog.Category>, products: map<nat, Catalog.Product>) {
    forall pk :: pk in products ==> products[pk].category in categories
  }

  /** Every purchase's product exists. */
  ghost predicate PurchasesValid(products: map<nat, Catalog.Product>, purchases: map<PurchaseKey, Purchase>) {
    forall k :: k in purchases ==> purchases[k].productId in products
  }

  /**
   * Deleting a category: its products go with it (`on_delete=models.CASCADE`
   * on Product.category), but when a purchase refers to one of them the
   * PROTECT on Purchase.product stops the whole deletion before anything is
   * removed. A deletion that goes through leaves every other row as it was.
   */
  function DeleteCategory(categories: map<string, Catalog.Category>, products: map<nat, Catalog.Product>,
                          purchases: map<PurchaseKey, Purchase>, sid: string)
    : (r: Result<(map<string, Catalog.Category>, map<nat, Catalog.Product>), DeleteError>)
    ensures r.Err? <==> exists pk :: pk in products && products[pk].category == sid && Referenced(purchases, pk)
    ensures r.Ok? ==> r.value.0.Keys == categories.Keys - {sid}
    ensures r.Ok? ==> forall c :: c in r.value.0 ==> r.value.0[c] == categories[c]
    ensures r.Ok? ==> forall pk :: pk in r.value.1 <==> pk in products && products[pk].category != sid
    ensures r.Ok? ==> forall pk :: pk in r.value.1 ==> r.value.1[pk] == products[pk]
  {
    if exists pk :: pk in products && products[pk].category == sid && Referenced(purchases, pk) then
      Err(ProtectedByPurchases)
    else
      Ok((map c | c in categories && c != sid :: categories[c],
          map pk | pk in products && products[pk].category != sid :: products[pk]))
  }

  /**
   * A category deletion that goes through keeps every remaining product's
   * category in place and every purchase's product in place.
   */
  lemma DeleteCategoryKeepsReferences(categories: map<string, Catalog.Category>, products: map<nat, Catalog.Product>,
                                      purchases: map<PurchaseKey, Purchase>, sid: string)
    requires ForeignKeysHold(categories, products) && PurchasesValid(products, purchases)
    ensures var r := DeleteCategory(categories, products, purchases, sid);
      r.Ok? ==> ForeignKeysHold(r.value.0, r.value.1) && PurchasesValid(r.value.1, purchases)
  {
    var r := DeleteCategory(categories, products, purchases, sid);
    if r.Ok? {
      forall k | k in purchases ensures purchases[k].productId in r.value.1 {
        var pk := purchases[k].productId;
        assert Referenced(purchases, pk);
      }
    }
  }
}
