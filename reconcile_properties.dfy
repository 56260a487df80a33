/**
 * Properties of the webhook reconciler: replaying a delivery changes
 * nothing but subscription update times, users are only ever promoted,
 * the recorded price is the one the checkout fixed, and the tables stay
 * consistent.
 */
module ReconcileProperties {
  import opened Wrappers
  import Accounts
  import Catalog
  import BillingModels
  import opened Reconcile

  /** Subscription tables equal except for the `updatedAt` stamps. */
  predicate SameUpToUpdatedAt(a: map<string, Subscription>, b: map<string, Subscription>) {
    a.Keys == b.Keys && forall id | id in a :: a[id].(updatedAt := 0) == b[id].(updatedAt := 0)
  }

  /** What a repeated delivery must leave alone. */
  predicate ReplayEquivalent(t1: Tables, t2: Tables) {
    && t1.users == t2.users && t1.products == t2.products && t1.purchases == t2.purchases
    && SameUpToUpdatedAt(t1.subscriptions, t2.subscriptions)
  }

  /** Every purchase row sits under its own key and points at a user and a product; likewise subscriptions. */
  ghost predicate Consistent(t: Tables) {
    && BillingModels.PurchasesKeyed(t.purchases)
    && BillingModels.SubscriptionsKeyed(t.subscriptions)
    && (forall k :: k in t.purchases ==> t.purchases[k].productId in t.products && t.purchases[k].userId in t.users)
    && (forall id :: id in t.subscriptions ==> t.subscriptions[id].userId in t.users)
  }

  /** Only the primary keys of a table decide a lookup. */
  lemma LookupPkKeys<V, W>(a: map<nat, V>, b: map<nat, W>, value: Option<string>)
    requires a.Keys == b.Keys
    ensures LookupPk(a, value) == LookupPk(b, value)
  {
  }

  /** The rows the cart loop collects sit under their own keys and point at an existing product and the buyer. */
  lemma {:induction false} CartWritesWellKeyed(products: map<nat, Catalog.Product>, fragments: seq<seq<string>>,
                                               ctx: PurchaseContext)
    ensures var w := CartWrites(products, fragments, ctx).0;
      forall k :: k in w ==>
        && w[k].sessionId == k.sessionId && w[k].productId == k.productId
        && w[k].productId in products && w[k].userId == ctx.userId
    decreases |fragments|
  {
    if |fragments| > 0 {
      CartWritesWellKeyed(products, fragments[1..], ctx);
    }
  }

  /** Replaying a payment step at a later time leaves the purchases as the first delivery left them. */
  lemma StepReplay(t: Tables, step: Step, now1: int, now2: int)
    ensures var a1 := ApplyStep(t, step, now1);
      ApplyStep(a1.tables, step, now2) == a1
  {
  }

  /** Replaying the cart loop at a later time changes nothing, even when it stopped on an exception. */
  lemma CartReplay(t: Tables, fragments: seq<seq<string>>, ctx: PurchaseContext, now1: int, now2: int)
    ensures var a1 := ApplyCart(t, fragments, ctx, now1);
      ApplyCart(a1.tables, fragments, ctx, now2) == a1
  {
    var w := CartWrites(t.products, fragments, ctx);
    ApplyCartIsOverlay(t, fragments, ctx, now1);
    var a1 := ApplyCart(t, fragments, ctx, now1);
    ApplyCartIsOverlay(a1.tables, fragments, ctx, now2);
    OverlayIdempotent(t.purchases, w.0, now1, now2);
  }

  /** A second delivery of the same completion, at any time, is a no-op up to subscription update times. */
  lemma CheckoutCompletedReplay(t: Tables, s: EventObject, defaultCurrency: string, now1: int, now2: int)
    ensures var a1 := CheckoutCompleted(t, s, defaultCurrency, now1);
      var a2 := CheckoutCompleted(a1.tables, s, defaultCurrency, now2);
      a2.raised == a1.raised && ReplayEquivalent(a1.tables, a2.tables)
  {
    var a1 := CheckoutCompleted(t, s, defaultCurrency, now1);
    var lookup := LookupPk(t.users, Get(s.metadata, "user_id"));
    LookupPkKeys(t.users, a1.tables.users, Get(s.metadata, "user_id"));
    if lookup.Found? {
      var uid := lookup.pk;
      if s.mode == Some("subscription") {
        SubscriptionActivatedReplay(t, s, uid, now1, now2);
      } else if s.mode == Some("payment") {
        PaymentReplay(t, s, uid, defaultCurrency, now1, now2);
      }
    }
  }

  /** Activating the same subscription again changes nothing but its update time. */
  lemma SubscriptionActivatedReplay(t: Tables, s: EventObject, uid: nat, now1: int, now2: int)
    requires uid in t.users
    ensures var a1 := SubscriptionActivated(t, s, uid, now1);
      var a2 := SubscriptionActivated(a1.tables, s, uid, now2);
      !a2.raised && ReplayEquivalent(a1.tables, a2.tables)
  {
  }

  /** Recording the same payment again leaves the tables as they were, with the same outcome. */
  lemma PaymentReplay(t: Tables, s: EventObject, uid: nat, defaultCurrency: string, now1: int, now2: int)
    ensures var ctx := ContextOf(s, uid, defaultCurrency);
      var a1 := if IsCartCompletion(s.metadata) then ApplyCart(t, CartMetadataDecode(s.metadata["cart"]), ctx, now1)
                else ApplyStep(t, SingleProductStep(t.products, ctx, s.metadata), now1);
      var a2 := if IsCartCompletion(s.metadata) then ApplyCart(a1.tables, CartMetadataDecode(s.metadata["cart"]), ctx, now2)
                else ApplyStep(a1.tables, SingleProductStep(a1.tables.products, ctx, s.metadata), now2);
      a2 == a1
  {
    var ctx := ContextOf(s, uid, defaultCurrency);
    if IsCartCompletion(s.metadata) {
      CartReplay(t, CartMetadataDecode(s.metadata["cart"]), ctx, now1, now2);
    } else {
      StepReplay(t, SingleProductStep(t.products, ctx, s.metadata), now1, now2);
    }
  }

  /** A second delivery of the same subscription update, at any time, is a no-op up to update times. */
  lemma SubscriptionUpdatedReplay(t: Tables, s: EventObject, now1: int, now2: int)
    ensures var a1 := SubscriptionUpdated(t, s, now1);
      var a2 := SubscriptionUpdated(a1.tables, s, now2);
      a2.raised == a1.raised && ReplayEquivalent(a1.tables, a2.tables)
  {
  }

  /** Webhook deliveries may be repeated: the answer and the tables come out the same up to update times. */
  lemma WebhookReplay(t: Tables, webhookSecret: string, verified: Option<Event>, parsed: Option<Event>,
                      defaultCurrency: string, now1: int, now2: int)
    ensures var r1 := StripeWebhook(t, webhookSecret, verified, parsed, defaultCurrency, now1);
      var r2 := StripeWebhook(r1.0.tables, webhookSecret, verified, parsed, defaultCurrency, now2);
      r2.1 == r1.1 && ReplayEquivalent(r1.0.tables, r2.0.tables)
  {
    var event := if webhookSecret != "" then verified else parsed;
    if event.Some? {
      var e := event.value;
      if e.eventType == Some(CheckoutCompletedType) {
        CheckoutCompletedReplay(t, e.obj, defaultCurrency, now1, now2);
      } else if e.eventType == Some(SubscriptionUpdatedType) || e.eventType == Some(SubscriptionDeletedType) {
        SubscriptionUpdatedReplay(t, e.obj, now1, now2);
      }
    }
  }

  /** No delivery removes a user or changes anything about one except making them pro. */
  lemma WebhookOnlyPromotes(t: Tables, webhookSecret: string, verified: Option<Event>, parsed: Option<Event>,
                            defaultCurrency: string, now: int)
    ensures var t2 := StripeWebhook(t, webhookSecret, verified, parsed, defaultCurrency, now).0.tables;
      && t2.users.Keys == t.users.Keys
      && forall u :: u in t.users ==>
           t2.users[u] == t.users[u] || t2.users[u] == t.users[u].(userType := Accounts.Pro)
  {
  }

  /** Hence a pro user stays pro whatever is delivered, subscription cancellations included. */
  lemma WebhookNeverDowngrades(t: Tables, webhookSecret: string, verified: Option<Event>, parsed: Option<Event>,
                               defaultCurrency: string, now: int, u: nat)
    requires u in t.users && t.users[u].userType == Accounts.Pro
    ensures var t2 := StripeWebhook(t, webhookSecret, verified, parsed, defaultCurrency, now).0.tables;
      u in t2.users && t2.users[u].userType == Accounts.Pro
  {
    WebhookOnlyPromotes(t, webhookSecret, verified, parsed, defaultCurrency, now);
  }

  /**
   * The amount recorded for a payment does not depend on the buyer's
   * current account type, only on the discount flag the checkout wrote
   * into the metadata.
   */
  lemma PriceLockedAtCheckout(t: Tables, users2: map<nat, Accounts.User>, s: EventObject,
                              defaultCurrency: string, now: int)
    requires users2.Keys == t.users.Keys
    requires s.mode == Some("payment")
    ensures var a1 := CheckoutCompleted(t, s, defaultCurrency, now);
      var a2 := CheckoutCompleted(t.(users := users2), s, defaultCurrency, now);
      a2.raised == a1.raised && a2.tables.purchases == a1.tables.purchases
  {
    var t2 := t.(users := users2);
    LookupPkKeys(t.users, users2, Get(s.metadata, "user_id"));
    var lookup := LookupPk(t.users, Get(s.metadata, "user_id"));
    if lookup.Found? && IsCartCompletion(s.metadata) {
      var ctx := ContextOf(s, lookup.pk, defaultCurrency);
      var fragments := CartMetadataDecode(s.metadata["cart"]);
      ApplyCartIsOverlay(t, fragments, ctx, now);
      ApplyCartIsOverlay(t2, fragments, ctx, now);
    }
  }

  /** The row a step writes sits under its own key and points at an existing product and user. */
  predicate StepFits(t: Tables, step: Step) {
    step.Write? ==>
      && step.values.sessionId == step.key.sessionId && step.values.productId == step.key.productId
      && step.values.productId in t.products && step.values.userId in t.users
  }

  lemma SingleProductStepFits(t: Tables, ctx: PurchaseContext, metadata: map<string, string>)
    requires ctx.userId in t.users
    ensures StepFits(t, SingleProductStep(t.products, ctx, metadata))
  {
  }

  lemma ApplyStepKeepsConsistent(t: Tables, step: Step, now: int)
    requires Consistent(t) && StepFits(t, step)
    ensures Consistent(ApplyStep(t, step, now).tables)
  {
  }

  lemma ApplyCartKeepsConsistent(t: Tables, fragments: seq<seq<string>>, ctx: PurchaseContext, now: int)
    requires Consistent(t) && ctx.userId in t.users
    ensures Consistent(ApplyCart(t, fragments, ctx, now).tables)
  {
    ApplyCartIsOverlay(t, fragments, ctx, now);
    CartWritesWellKeyed(t.products, fragments, ctx);
  }

  lemma SubscriptionActivatedKeepsConsistent(t: Tables, s: EventObject, uid: nat, now: int)
    requires Consistent(t) && uid in t.users
    ensures Consistent(SubscriptionActivated(t, s, uid, now).tables)
  {
  }

  lemma CheckoutCompletedKeepsConsistent(t: Tables, s: EventObject, defaultCurrency: string, now: int)
    requires Consistent(t)
    ensures Consistent(CheckoutCompleted(t, s, defaultCurrency, now).tables)
  {
    var lookup := LookupPk(t.users, Get(s.metadata, "user_id"));
    if lookup.Found? {
      var ctx := ContextOf(s, lookup.pk, defaultCurrency);
      if s.mode == Some("subscription") {
        SubscriptionActivatedKeepsConsistent(t, s, lookup.pk, now);
      } else if s.mode == Some("payment") {
        if IsCartCompletion(s.metadata) {
          ApplyCartKeepsConsistent(t, CartMetadataDecode(s.metadata["cart"]), ctx, now);
        } else {
          SingleProductStepFits(t, ctx, s.metadata);
          ApplyStepKeepsConsistent(t, SingleProductStep(t.products, ctx, s.metadata), now);
        }
      }
    }
  }

  lemma SubscriptionUpdatedKeepsConsistent(t: Tables, s: EventObject, now: int)
    requires Consistent(t)
    ensures Consistent(SubscriptionUpdated(t, s, now).tables)
  {
  }

  /** Every delivery keeps the tables consistent. */
  lemma WebhookKeepsConsistent(t: Tables, webhookSecret: string, verified: Option<Event>, parsed: Option<Event>,
                               defaultCurrency: string, now: int)
    requires Consistent(t)
    ensures Consistent(StripeWebhook(t, webhookSecret, verified, parsed, defaultCurrency, now).0.tables)
  {
    var event := if webhookSecret != "" then verified else parsed;
    if event.Some? {
      if event.value.eventType == Some(CheckoutCompletedType) {
        CheckoutCompletedKeepsConsistent(t, event.value.obj, defaultCurrency, now);
      } else {
        SubscriptionUpdatedKeepsConsistent(t, event.value.obj, now);
      }
    }
  }
}
