/**
 * What the payment webhook does to the tables (billing/views.py,
 * `stripe_webhook`, `_handle_checkout_completed`,
 * `_handle_subscription_updated`, `_timestamp_to_dt`), as functions from the
 * tables before to the tables after. A Python exception is the `raised`
 * flag: the request ends with a server error, and any upsert made before
 * the exception stays (no transaction spans the handler).
 */
module Reconcile {
  import opened Wrappers
  import Text
  import Money
  import Catalog
  import Accounts
  import BillingModels
  import CartMetadata

  type Purchase = BillingModels.Purchase
  type PurchaseKey = BillingModels.PurchaseKey
  type Subscription = BillingModels.Subscription

  /** The tables the reconciler reads and writes. */
  datatype Tables = Tables(
    users: map<nat, Accounts.User>,
    products: map<nat, Catalog.Product>,
    purchases: map<PurchaseKey, Purchase>,
    subscriptions: map<string, Subscription>)

  datatype Applied = Applied(tables: Tables, raised: bool)

  /** A JSON timestamp field: absent, a number, or a string. */
  datatype Timestamp = Absent | Number(n: int) | Text(s: string)

  /**
   * The keys of the event's `data.object` the handlers read, None when the
   * key is absent. `metadata` is `session.get("metadata") or {}`.
   */
  datatype EventObject = EventObject(
    id: Option<string>,
    mode: Option<string>,
    metadata: map<string, string>,
    subscription: Option<string>,
    customer: Option<string>,
    currency: Option<string>,
    paymentIntent: Option<string>,
    expiresAt: Timestamp,
    status: Option<string>,
    currentPeriodEnd: Timestamp)

  /** `event.get("type")` and `event.get("data", {}).get("object", {})`. */
  datatype Event = Event(eventType: Option<string>, obj: EventObject)

  datatype Response = Ok200 | BadRequest400(message: string) | ServerError500

  const CheckoutCompletedType: string := "checkout.session.completed"
  const SubscriptionUpdatedType: string := "customer.subscription.updated"
  const SubscriptionDeletedType: string := "customer.subscription.deleted"

  /** `dict.get(key)`. */
  function Get(m: map<string, string>, key: string): Option<string> {
    if key in m then Some(m[key]) else None
  }

  /**
   * `_timestamp_to_dt`: a missing or falsy value (0, "") and a string that
   * `int()` cannot read give None; anything else is that many seconds
   * since the epoch.
   */
  function TimestampToDt(v: Timestamp): (r: Option<int>)
    ensures v.Absent? ==> r.None?
    ensures v.Number? ==> (r.None? <==> v.n == 0)
    ensures v.Number? && v.n != 0 ==> r == Some(v.n)
    ensures v.Text? ==> r == (if v.s == "" then None else Text.ParseInt(v.s))
  {
    match v
    case Absent => None
    case Number(n) => if n == 0 then None else Some(n)
    case Text(s) => if s == "" then None else Text.ParseInt(s)
  }

  /** A number and its decimal text give the same time, except 0, which only the text form keeps. */
  lemma TimestampForms(n: int)
    ensures TimestampToDt(Text(Text.IntToString(n))) == Some(n)
    ensures n != 0 ==> TimestampToDt(Number(n)) == Some(n)
    ensures TimestampToDt(Number(0)) == None
  {
    Text.ParseIntToString(n);
  }

  datatype Lookup = Found(pk: nat) | Missing | Invalid

  /**
   * `Model.objects.filter(pk=value).first()`: no value matches nothing; a
   * value `int()` cannot read raises (Invalid); otherwise the row with that
   * primary key, if any.
   */
  function LookupPk<V>(table: map<nat, V>, value: Option<string>): (r: Lookup)
    ensures r.Found? ==> r.pk in table
    ensures value.None? ==> r == Missing
    ensures r == Invalid <==> value.Some? && Text.ParseInt(value.value).None?
  {
    if value.None? then Missing
    else match Text.ParseInt(value.value)
      case None => Invalid
      case Some(n) => if n >= 0 && n in table then Found(n) else Missing
  }

  // ------------------------------------------------------------ purchases

  /** The `defaults` of the Purchase `update_or_create`; `createdAt` is the row's own. */
  datatype PurchaseValues = PurchaseValues(
    userId: nat,
    productId: nat,
    quantity: nat,
    amountCents: int,
    currency: string,
    sessionId: string,
    paymentIntentId: string,
    discountApplied: bool)

  function PurchaseRow(v: PurchaseValues, createdAt: int): Purchase {
    BillingModels.Purchase(v.userId, v.productId, v.quantity, v.amountCents, v.currency,
                           v.sessionId, v.paymentIntentId, v.discountApplied, createdAt)
  }

  /**
   * `update_or_create` on a purchase key: the row takes the new values; a
   * new row is stamped `now`, an existing one keeps its creation time.
   */
  function UpsertPurchase(purchases: map<PurchaseKey, Purchase>, k: PurchaseKey, v: PurchaseValues, now: int)
    : (r: map<PurchaseKey, Purchase>)
    ensures r.Keys == purchases.Keys + {k}
    ensures r[k] == PurchaseRow(v, if k in purchases then purchases[k].createdAt else now)
    ensures forall k' :: k' in purchases && k' != k ==> r[k'] == purchases[k']
  {
    purchases[k := PurchaseRow(v, if k in purchases then purchases[k].createdAt else now)]
  }

  /** What a payment-mode completion knows besides the product and quantity. */
  datatype PurchaseContext = PurchaseContext(
    userId: nat,
    sessionId: Option<string>,
    currency: string,
    paymentIntent: string,
    discount: bool)

  /** The result of reading one purchase request. */
  datatype Step = Raise | Skip | Write(key: PurchaseKey, values: PurchaseValues)

  /**
   * One Purchase upsert: the amount is the (possibly discounted) unit price
   * times the quantity, exactly; a missing session id (NOT NULL) or a
   * negative quantity (the positive-integer check) makes the database
   * refuse it.
   */
  function PurchaseStep(products: map<nat, Catalog.Product>, ctx: PurchaseContext, productId: nat, qty: int): (s: Step)
    requires productId in products
    ensures s.Write? <==> ctx.sessionId.Some? && qty >= 0
    ensures s.Write? ==>
      && s.key == BillingModels.PurchaseKey(ctx.sessionId.value, productId)
      && s.values.quantity == qty && s.values.productId == productId && s.values.userId == ctx.userId
      && s.values.sessionId == ctx.sessionId.value
      && s.values.discountApplied == ctx.discount
      && s.values.amountCents == Money.UnitPrice(products[productId].priceCents, ctx.discount) * qty
  {
    if ctx.sessionId.None? || qty < 0 then Raise
    else
      var sid := ctx.sessionId.value;
      var price := Money.UnitPrice(products[productId].priceCents, ctx.discount);
      Write(BillingModels.PurchaseKey(sid, productId),
            PurchaseValues(ctx.userId, productId, qty, price * qty, ctx.currency, sid, ctx.paymentIntent, ctx.discount))
  }

  /**
   * One cart fragment, `for pid_str, qty_str in entries`: not exactly two
   * fields fails the unpacking; an unreadable product id raises; a product
   * that no longer exists is skipped before the quantity is read; an
   * unreadable quantity raises.
   */
  function FragmentStep(products: map<nat, Catalog.Product>, ctx: PurchaseContext, fields: seq<string>): Step
  {
    if |fields| != 2 then Raise
    else match LookupPk(products, Some(fields[0]))
      case Invalid => Raise
      case Missing => Skip
      case Found(pid) =>
        match Text.ParseInt(fields[1])
        case None => Raise
        case Some(qty) => PurchaseStep(products, ctx, pid, qty)
  }

  /**
   * The single-product completion: no product id, or one naming no row,
   * does nothing; an unreadable id or quantity raises; the quantity
   * defaults to "1".
   */
  function SingleProductStep(products: map<nat, Catalog.Product>, ctx: PurchaseContext, metadata: map<string, string>): Step
  {
    match LookupPk(products, Get(metadata, "product_id"))
    case Invalid => Raise
    case Missing => Skip
    case Found(pid) =>
      match Text.ParseInt(Get(metadata, "quantity").GetOr("1"))
      case None => Raise
      case Some(qty) => PurchaseStep(products, ctx, pid, qty)
  }

  function ApplyStep(t: Tables, step: Step, now: int): (a: Applied)
    ensures a.tables.users == t.users && a.tables.products == t.products
    ensures a.tables.subscriptions == t.subscriptions
    ensures a.raised <==> step.Raise?
  {
    match step
    case Raise => Applied(t, true)
    case Skip => Applied(t, false)
    case Write(k, v) => Applied(t.(purchases := UpsertPurchase(t.purchases, k, v, now)), false)
  }

  /** The loop over the cart fragments, stopping at the first exception. */
  function ApplyCart(t: Tables, fragments: seq<seq<string>>, ctx: PurchaseContext, now: int): (a: Applied)
    ensures a.tables.users == t.users && a.tables.products == t.products
    ensures a.tables.subscriptions == t.subscriptions
    decreases |fragments|
  {
    if |fragments| == 0 then Applied(t, false)
    else
      var a := ApplyStep(t, FragmentStep(t.products, ctx, fragments[0]), now);
      if a.raised then a else ApplyCart(a.tables, fragments[1..], ctx, now)
  }

  // ------------------------------------------------------------ a reference definition of the cart loop

  /**
   * The rows the cart loop writes, by key (a later fragment for the same key
   * wins), and whether it stops on an exception.
   */
  function CartWrites(products: map<nat, Catalog.Product>, fragments: seq<seq<string>>, ctx: PurchaseContext)
    : (w: (map<PurchaseKey, PurchaseValues>, bool))
  {
    if |fragments| == 0 then (map[], false)
    else match FragmentStep(products, ctx, fragments[0])
      case Raise => (map[], true)
      case Skip => CartWrites(products, fragments[1..], ctx)
      case Write(k, v) =>
        var rest := CartWrites(products, fragments[1..], ctx);
        (map[k := v] + rest.0, rest.1)
  }

  /** The purchases after writing `writes` over `purchases` at time `now`. */
  function Overlay(purchases: map<PurchaseKey, Purchase>, writes: map<PurchaseKey, PurchaseValues>, now: int)
    : (r: map<PurchaseKey, Purchase>)
    ensures r.Keys == purchases.Keys + writes.Keys
  {
    map k | k in purchases.Keys + writes.Keys ::
      if k in writes then PurchaseRow(writes[k], if k in purchases then purchases[k].createdAt else now)
      else purchases[k]
  }

  lemma OverlayCompose(p: map<PurchaseKey, Purchase>, w1: map<PurchaseKey, PurchaseValues>,
                       w2: map<PurchaseKey, PurchaseValues>, now: int)
    ensures Overlay(Overlay(p, w1, now), w2, now) == Overlay(p, w1 + w2, now)
  {
  }

  lemma OverlayNothing(p: map<PurchaseKey, Purchase>, now: int)
    ensures Overlay(p, map[], now) == p
  {
  }

  /** Writing the same rows again, at any later time, changes nothing. */
  lemma OverlayIdempotent(p: map<PurchaseKey, Purchase>, w: map<PurchaseKey, PurchaseValues>, now1: int, now2: int)
    ensures Overlay(Overlay(p, w, now1), w, now2) == Overlay(p, w, now1)
  {
  }

  /**
   * The cart loop, one upsert after another, is the same as writing all of
   * the rows it collects at once.
   */
  lemma {:induction false} ApplyCartIsOverlay(t: Tables, fragments: seq<seq<string>>, ctx: PurchaseContext, now: int)
    ensures var w := CartWrites(t.products, fragments, ctx);
      ApplyCart(t, fragments, ctx, now) == Applied(t.(purchases := Overlay(t.purchases, w.0, now)), w.1)
    decreases |fragments|
  {
    if |fragments| == 0 {
      OverlayNothing(t.purchases, now);
    } else {
      match FragmentStep(t.products, ctx, fragments[0])
      case Raise =>
        OverlayNothing(t.purchases, now);
      case Skip =>
        ApplyCartIsOverlay(t, fragments[1..], ctx, now);
      case Write(k, v) =>
        var t1 := t.(purchases := UpsertPurchase(t.purchases, k, v, now));
        assert t1.purchases == Overlay(t.purchases, map[k := v], now);
        ApplyCartIsOverlay(t1, fragments[1..], ctx, now);
        OverlayCompose(t.purchases, map[k := v], CartWrites(t.products, fragments[1..], ctx).0, now);
    }
  }

  // ------------------------------------------------------------ subscriptions

  /** The `defaults` of the Subscription `update_or_create` at checkout completion. */
  datatype SubscriptionValues = SubscriptionValues(
    userId: nat,
    customerId: string,
    priceId: string,
    status: string,
    currentPeriodEnd: Option<int>)

  function UpsertSubscription(subs: map<string, Subscription>, id: string, v: SubscriptionValues, now: int)
    : (r: map<string, Subscription>)
    ensures r.Keys == subs.Keys + {id}
    ensures r[id].subscriptionId == id && r[id].userId == v.userId && r[id].status == v.status
    ensures r[id].customerId == v.customerId && r[id].priceId == v.priceId
    ensures r[id].currentPeriodEnd == v.currentPeriodEnd
    ensures r[id].updatedAt == now
    ensures r[id].createdAt == if id in subs then subs[id].createdAt else now
    ensures forall id' :: id' in subs && id' != id ==> r[id'] == subs[id']
  {
    var createdAt := if id in subs then subs[id].createdAt else now;
    subs[id := BillingModels.Subscription(v.userId, v.customerId, id, v.priceId, v.status,
                                          v.currentPeriodEnd, createdAt, now)]
  }

  /** `user.user_type = User.PRO` unless already pro. */
  function Promote(users: map<nat, Accounts.User>, uid: nat): (r: map<nat, Accounts.User>)
    requires uid in users
    ensures r.Keys == users.Keys && r[uid].userType == Accounts.Pro
    ensures r[uid] == users[uid].(userType := Accounts.Pro)
    ensures forall u :: u in users && u != uid ==> r[u] == users[u]
    ensures users[uid].userType == Accounts.Pro ==> r == users
  {
    if users[uid].userType != Accounts.Pro then users[uid := users[uid].(userType := Accounts.Pro)]
    else users
  }

  /**
   * Subscription-mode completion: without a subscription id nothing
   * changes; otherwise the subscription row is upserted as "active" and the
   * user is made pro.
   */
  function SubscriptionActivated(t: Tables, s: EventObject, uid: nat, now: int): (a: Applied)
    requires uid in t.users
    ensures !a.raised
    ensures s.subscription.None? || s.subscription == Some("") ==> a.tables == t
    ensures s.subscription.Some? && s.subscription != Some("") ==>
      var id := s.subscription.value;
      && a.tables.subscriptions.Keys == t.subscriptions.Keys + {id}
      && a.tables.subscriptions[id].status == "active"
      && a.tables.subscriptions[id].userId == uid
      && a.tables.subscriptions[id].customerId == s.customer.GetOr("")
      && a.tables.subscriptions[id].priceId == Get(s.metadata, "price_id").GetOr("")
      && a.tables.subscriptions[id].currentPeriodEnd == TimestampToDt(s.expiresAt)
      && (forall id' :: id' in t.subscriptions && id' != id ==> a.tables.subscriptions[id'] == t.subscriptions[id'])
      && a.tables.users == Promote(t.users, uid)
      && a.tables.purchases == t.purchases && a.tables.products == t.products
  {
    if s.subscription.None? || s.subscription == Some("") then Applied(t, false)
    else
      var id := s.subscription.value;
      var v := SubscriptionValues(uid, s.customer.GetOr(""), Get(s.metadata, "price_id").GetOr(""),
                                  "active", TimestampToDt(s.expiresAt));
      Applied(t.(users := Promote(t.users, uid),
                 subscriptions := UpsertSubscription(t.subscriptions, id, v, now)), false)
  }

  function ContextOf(s: EventObject, uid: nat, defaultCurrency: string): PurchaseContext {
    PurchaseContext(uid, s.id, s.currency.GetOr(defaultCurrency), s.paymentIntent.GetOr(""),
                    Get(s.metadata, "discount_applied") == Some("true"))
  }

  /** The branch test `metadata.get("type") == "product_cart" and cart_map`. */
  predicate IsCartCompletion(metadata: map<string, string>) {
    Get(metadata, "type") == Some("product_cart") && Get(metadata, "cart").Some? && metadata["cart"] != ""
  }

  /** `_handle_checkout_completed`. */
  function CheckoutCompleted(t: Tables, s: EventObject, defaultCurrency: string, now: int): (a: Applied)
    ensures a.tables.products == t.products
    ensures LookupPk(t.users, Get(s.metadata, "user_id")) == Missing ==> a == Applied(t, false)
    ensures LookupPk(t.users, Get(s.metadata, "user_id")) == Invalid ==> a == Applied(t, true)
    ensures s.mode != Some("subscription") && s.mode != Some("payment") ==>
      a.tables == t && (a.raised <==> LookupPk(t.users, Get(s.metadata, "user_id")) == Invalid)
    ensures s.mode != Some("subscription") ==> a.tables.users == t.users && a.tables.subscriptions == t.subscriptions
  {
    match LookupPk(t.users, Get(s.metadata, "user_id"))
    case Invalid => Applied(t, true)
    case Missing => Applied(t, false)
    case Found(uid) =>
      if s.mode == Some("subscription") then SubscriptionActivated(t, s, uid, now)
      else if s.mode == Some("payment") then
        var ctx := ContextOf(s, uid, defaultCurrency);
        if IsCartCompletion(s.metadata) then
          ApplyCart(t, CartMetadataDecode(s.metadata["cart"]), ctx, now)
        else ApplyStep(t, SingleProductStep(t.products, ctx, s.metadata), now)
      else Applied(t, false)
  }

  /** `[entry.split(":") for entry in cart_map.split("|") if ":" in entry]`. */
  function CartMetadataDecode(cart: string): seq<seq<string>> {
    CartMetadata.Decode(cart)
  }

  /**
   * `_handle_subscription_updated`: without an id nothing changes; an
   * existing row takes the event's customer, status (default "incomplete",
   * stored as sent) and period end; an id with no row raises, because the
   * insert has no user for the NOT NULL `user` column. Users are never
   * touched.
   */
  function SubscriptionUpdated(t: Tables, s: EventObject, now: int): (a: Applied)
    ensures a.tables.users == t.users && a.tables.purchases == t.purchases && a.tables.products == t.products
    ensures s.id.None? || s.id == Some("") ==> a == Applied(t, false)
    ensures s.id.Some? && s.id != Some("") ==> (a.raised <==> s.id.value !in t.subscriptions)
    ensures a.raised ==> a.tables == t
    ensures s.id.Some? && s.id != Some("") && s.id.value in t.subscriptions ==>
      var id := s.id.value;
      && a.tables.subscriptions.Keys == t.subscriptions.Keys
      && a.tables.subscriptions[id] == t.subscriptions[id].(
           customerId := s.customer.GetOr(""),
           status := s.status.GetOr(BillingModels.DefaultStatus),
           currentPeriodEnd := TimestampToDt(s.currentPeriodEnd),
           updatedAt := now)
      && forall id' :: id' in t.subscriptions && id' != id ==> a.tables.subscriptions[id'] == t.subscriptions[id']
  {
    if s.id.None? || s.id == Some("") then Applied(t, false)
    else
      var id := s.id.value;
      if id !in t.subscriptions then Applied(t, true)
      else
        var row := t.subscriptions[id].(
          customerId := s.customer.GetOr(""),
          status := s.status.GetOr(BillingModels.DefaultStatus),
          currentPeriodEnd := TimestampToDt(s.currentPeriodEnd),
          updatedAt := now);
        Applied(t.(subscriptions := t.subscriptions[id := row]), false)
  }

  predicate IsHandledType(eventType: Option<string>) {
    eventType == Some(CheckoutCompletedType) || eventType == Some(SubscriptionUpdatedType)
    || eventType == Some(SubscriptionDeletedType)
  }

  /** The dispatch on the event type; any other type is ignored. */
  function Dispatch(t: Tables, e: Event, defaultCurrency: string, now: int): (a: Applied)
    ensures !IsHandledType(e.eventType) ==> a == Applied(t, false)
  {
    if e.eventType == Some(CheckoutCompletedType) then CheckoutCompleted(t, e.obj, defaultCurrency, now)
    else if e.eventType == Some(SubscriptionUpdatedType) || e.eventType == Some(SubscriptionDeletedType) then
      SubscriptionUpdated(t, e.obj, now)
    else Applied(t, false)
  }

  /**
   * `stripe_webhook`. With a webhook secret configured the event is what
   * signature verification produced (None: bad signature or body); without
   * one it is the plain JSON parse (None: bad JSON). Either failure is a 400
   * before any table is read; a handled event answers 200 unless the
   * handler raised.
   */
  function StripeWebhook(t: Tables, webhookSecret: string, verified: Option<Event>, parsed: Option<Event>,
                         defaultCurrency: string, now: int)
    : (r: (Applied, Response))
    ensures webhookSecret != "" && verified.None? ==>
      r == (Applied(t, false), BadRequest400("Invalid webhook signature"))
    ensures webhookSecret == "" && parsed.None? ==> r == (Applied(t, false), BadRequest400("Invalid payload"))
    ensures r.1.BadRequest400? ==> r.0.tables == t
    ensures r.1 == Ok200 <==> (if webhookSecret != "" then verified else parsed).Some? && !r.0.raised
    ensures r.1 == ServerError500 <==> r.0.raised
  {
    var event := if webhookSecret != "" then verified else parsed;
    if event.None? then
      (Applied(t, false), BadRequest400(if webhookSecret != "" then "Invalid webhook signature" else "Invalid payload"))
    else
      var a := Dispatch(t, event.value, defaultCurrency, now);
      (a, if a.raised then ServerError500 else Ok200)
  }
}
