/**
 * The webhook endpoint and the checkout success page of billing/views.py,
 * writing one row at a time into the database, each proved to leave the
 * tables as the reconciler's functions say.
 */
module WebhookViews {
  import opened Wrappers
  import Accounts
  import BillingModels
  import Cart
  import Sessions
  import Store
  import opened Reconcile

  /** The subscription-mode branch of `_handle_checkout_completed`. */
  method ActivateSubscription(db: Store.Database, s: EventObject, uid: nat, now: int)
    requires uid in db.users
    requires db.Valid()
    modifies db
    ensures db.Valid()
    ensures db.BillingTables() == SubscriptionActivated(old(db.BillingTables()), s, uid, now).tables
    ensures db.pendingRegistrations == old(db.pendingRegistrations)
    ensures db.nextUserId == old(db.nextUserId) && db.nextPendingId == old(db.nextPendingId)
  {
    if s.subscription.None? || s.subscription == Some("") {
      return;
    }
    var id := s.subscription.value;
    var v := SubscriptionValues(uid, s.customer.GetOr(""), Get(s.metadata, "price_id").GetOr(""),
                                "active", TimestampToDt(s.expiresAt));
    db.subscriptions := UpsertSubscription(db.subscriptions, id, v, now);
    if db.users[uid].userType != Accounts.Pro {
      db.users := db.users[uid := db.users[uid].(userType := Accounts.Pro)];
    }
  }

  /** One Purchase `update_or_create`, or the exception that stops the handler. */
  method RecordStep(db: Store.Database, step: Step, now: int) returns (raised: bool)
    requires db.Valid()
    modifies db
    ensures db.Valid()
    ensures var a := ApplyStep(old(db.BillingTables()), step, now);
      db.BillingTables() == a.tables && raised == a.raised
    ensures db.pendingRegistrations == old(db.pendingRegistrations)
    ensures db.nextUserId == old(db.nextUserId) && db.nextPendingId == old(db.nextPendingId)
  {
    match step
    case Raise =>
      raised := true;
    case Skip =>
      raised := false;
    case Write(k, v) =>
      db.purchases := UpsertPurchase(db.purchases, k, v, now);
      raised := false;
  }

  /** The loop over the cart fragments; an exception ends it with the earlier rows written. */
  method RecordCart(db: Store.Database, fragments: seq<seq<string>>, ctx: PurchaseContext, now: int)
    returns (raised: bool)
    requires db.Valid()
    modifies db
    ensures db.Valid()
    ensures var a := ApplyCart(old(db.BillingTables()), fragments, ctx, now);
      db.BillingTables() == a.tables && raised == a.raised
    ensures db.pendingRegistrations == old(db.pendingRegistrations)
    ensures db.nextUserId == old(db.nextUserId) && db.nextPendingId == old(db.nextPendingId)
  {
    ghost var goal := ApplyCart(db.BillingTables(), fragments, ctx, now);
    var i := 0;
    while i < |fragments|
      invariant i <= |fragments|
      invariant ApplyCart(db.BillingTables(), fragments[i..], ctx, now) == goal
      invariant db.Valid()
      invariant db.pendingRegistrations == old(db.pendingRegistrations)
      invariant db.nextUserId == old(db.nextUserId) && db.nextPendingId == old(db.nextPendingId)
    {
      var step := FragmentStep(db.products, ctx, fragments[i]);
      assert fragments[i..][1..] == fragments[i + 1..];
      raised := RecordStep(db, step, now);
      if raised {
        return;
      }
      i := i + 1;
    }
    raised := false;
  }

  /** `_handle_checkout_completed`. */
  method HandleCheckoutCompleted(db: Store.Database, s: EventObject, defaultCurrency: string, now: int)
    returns (raised: bool)
    requires db.Valid()
    modifies db
    ensures db.Valid()
    ensures var a := CheckoutCompleted(old(db.BillingTables()), s, defaultCurrency, now);
      db.BillingTables() == a.tables && raised == a.raised
    ensures db.pendingRegistrations == old(db.pendingRegistrations)
    ensures db.nextUserId == old(db.nextUserId) && db.nextPendingId == old(db.nextPendingId)
  {
    var lookup := LookupPk(db.users, Get(s.metadata, "user_id"));
    if lookup.Invalid? {
      return true;
    } else if lookup.Missing? {
      return false;
    }
    var uid := lookup.pk;
    if s.mode == Some("subscription") {
      ActivateSubscription(db, s, uid, now);
      raised := false;
    } else if s.mode == Some("payment") {
      var ctx := ContextOf(s, uid, defaultCurrency);
      if IsCartCompletion(s.metadata) {
        raised := RecordCart(db, CartMetadataDecode(s.metadata["cart"]), ctx, now);
      } else {
        raised := RecordStep(db, SingleProductStep(db.products, ctx, s.metadata), now);
      }
    } else {
      raised := false;
    }
  }

  /** `_handle_subscription_updated`. */
  method HandleSubscriptionUpdated(db: Store.Database, s: EventObject, now: int) returns (raised: bool)
    requires db.Valid()
    modifies db
    ensures db.Valid()
    ensures var a := SubscriptionUpdated(old(db.BillingTables()), s, now);
      db.BillingTables() == a.tables && raised == a.raised
    ensures db.pendingRegistrations == old(db.pendingRegistrations)
    ensures db.nextUserId == old(db.nextUserId) && db.nextPendingId == old(db.nextPendingId)
  {
    if s.id.None? || s.id == Some("") {
      return false;
    }
    var id := s.id.value;
    if id !in db.subscriptions {
      return true;
    }
    db.subscriptions := db.subscriptions[id := db.subscriptions[id].(
      customerId := s.customer.GetOr(""),
      status := s.status.GetOr(BillingModels.DefaultStatus),
      currentPeriodEnd := TimestampToDt(s.currentPeriodEnd),
      updatedAt := now)];
    raised := false;
  }

  /** `stripe_webhook`: the response, and the tables as the reconciler leaves them. */
  method StripeWebhook(db: Store.Database, webhookSecret: string, verified: Option<Event>, parsed: Option<Event>,
                       defaultCurrency: string, now: int)
    returns (response: Response)
    requires db.Valid()
    modifies db
    ensures db.Valid()
    ensures var r := Reconcile.StripeWebhook(old(db.BillingTables()), webhookSecret, verified, parsed, defaultCurrency, now);
      db.BillingTables() == r.0.tables && response == r.1
    ensures db.pendingRegistrations == old(db.pendingRegistrations)
    ensures db.nextUserId == old(db.nextUserId) && db.nextPendingId == old(db.nextPendingId)
  {
    var event := if webhookSecret != "" then verified else parsed;
    if event.None? {
      return BadRequest400(if webhookSecret != "" then "Invalid webhook signature" else "Invalid payload");
    }
    var e := event.value;
    var raised := false;
    if e.eventType == Some(CheckoutCompletedType) {
      raised := HandleCheckoutCompleted(db, e.obj, defaultCurrency, now);
    } else if e.eventType == Some(SubscriptionUpdatedType) || e.eventType == Some(SubscriptionDeletedType) {
      raised := HandleSubscriptionUpdated(db, e.obj, now);
    }
    response := if raised then ServerError500 else Ok200;
  }

  /**
   * `CheckoutSuccessView.get`: with a session id and a secret key, the
   * checkout session is fetched (None: the provider's error, which only
   * shows a warning) and reconciled as the webhook would; then the cart is
   * emptied. An exception from the reconciler ends the request before the
   * cart is touched.
   */
  method CheckoutSuccess(db: Store.Database, session: Sessions.Session, sessionId: Option<string>,
                         secretKey: string, retrieved: Option<EventObject>, defaultCurrency: string, now: int)
    returns (raised: bool)
    requires db.Valid() && session.Valid()
    modifies db, session
    ensures db.Valid() && session.Valid()
    ensures var reconciles := sessionId.Some? && sessionId.value != "" && secretKey != "" && retrieved.Some?;
      var a := if reconciles then CheckoutCompleted(old(db.BillingTables()), retrieved.value, defaultCurrency, now)
               else Applied(old(db.BillingTables()), false);
      db.BillingTables() == a.tables && raised == a.raised
    ensures raised ==> session.CartValue() == old(session.CartValue())
    ensures !raised ==> session.CartValue() == Cart.Empty
    ensures session.pendingRegistrationId == old(session.pendingRegistrationId)
    ensures session.authUserId == old(session.authUserId)
    ensures db.pendingRegistrations == old(db.pendingRegistrations)
    ensures db.nextUserId == old(db.nextUserId) && db.nextPendingId == old(db.nextPendingId)
  {
    raised := false;
    if sessionId.Some? && sessionId.value != "" && secretKey != "" && retrieved.Some? {
      raised := HandleCheckoutCompleted(db, retrieved.value, defaultCurrency, now);
      if raised {
        return;
      }
    }
    session.SaveCart(Cart.Empty);
  }
}
