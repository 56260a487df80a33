# A Dafny model of the shop's pricing, cart, checkout reconciliation, registration and catalog import

This project models the core of a small Django shop ("final-py"): the
billing views (pro discount in integer cents, the session cart, the cart
page, the three checkout builders, the Stripe webhook and the success
page), the registration and login state machine, the disabled-user
middleware, the cart counter, the catalog import command, and the record
definitions these rely on. Everything is stated in Dafny and proved.

How the model is organised:

- Money is integer cents. `(price * 0.8).quantize(0.01)` under Python's
  default half-even context is `Money.ProPrice(cents)`, the even-tie
  rounding of `8 * cents / 10`. `8 * cents` never ends in 5, so no tie
  ever occurs.
- The session cart (a `dict` from `str(product_id)` to quantity, in
  insertion order) is a `Cart.CartValue`: a sequence of distinct keys plus
  a quantity map. It lives in the class `Sessions.Session` together with
  the pending-registration id and the logged-in user. Django's `logout()`
  flushes the whole session; `login()` flushes it only when another user
  was logged in.
- The database is the class `Store.Database`: users, pending
  registrations, products by primary key, purchases keyed by
  `(stripe_checkout_session_id, product)` and subscriptions keyed by
  `stripe_subscription_id`. Each table is a `map` whose key is the unique
  column.
- The webhook reconciler is specified by pure functions on
  `Reconcile.Tables` (`CheckoutCompleted`, `SubscriptionUpdated`,
  `StripeWebhook`). The methods in `WebhookViews` change the database and
  are proved equal to them. The cart-metadata loop `ApplyCart` is proved
  equal to an independent reference, the overlay of all the cart's writes
  at once (`Reconcile.ApplyCartIsOverlay`).
- A Python exception is an explicit `raised` flag. Rows written before it
  stay written, because nothing wraps the loops in a transaction. An
  exception that escapes a view is a 500 response.
- Python's `int()` on a string is `Text.ParseInt`: an optional sign and
  ASCII digits.
- The import command's category map is modelled under two keyings
  (`Importer.Keying`). `AsWritten` is the code: a category is filed under
  the `source_id` of the object `update_or_create` returns, and a product
  looks up its raw `category_id`. `ByText` is the correction: both sides
  use the stored text. `Importer.CatalogTables` runs the command as
  written; the properties of the loops are proved for both keyings, and
  the ones only the correction has are proved for `ByText` (see
  "## Findings").
- The clock (`timezone.now()`), the random draw of `_generate_code`, and
  the results of the Stripe calls are parameters.

Three behaviours of the code, modelled as it is written:

- A `customer.subscription.updated` or `.deleted` event for a subscription
  id that has no row is not tolerated. `update_or_create` inserts a row
  without a user, the NOT NULL `user` column refuses it, and the webhook
  answers 500, nothing stored. So "subscription updated" arriving before
  "checkout completed" is not handled in either order
  (`Reconcile.SubscriptionUpdated`, `raised <==> id !in subscriptions`).
- A decoded event whose handler raises answers 500, not 200.
- The cart page applies the discount once to the total; the checkout
  applies it to each unit price. The two can differ by a cent
  (`Checkout.ProPageTotalCanDifferFromCharge`: one product at 3 cents,
  quantity 2, shows 5 but is charged 4).

## Model

| member | source | states |
|---|---|---|
| Money.QuantizeTenths | billing/views.py:108-110 | the result is the nearest integer to n/10, and an exact half is resolved to the even neighbour (ROUND_HALF_EVEN) |
| Money.QuantizeTenthsUnique | billing/views.py:108-110 | any integer within half a unit of n/10, with ties to even, is the quantized value: the rounding is determined |
| Money.ProPrice | billing/views.py:108-110 | the pro price in cents is within half a cent of 0.8 times the price |
| Money.ProPriceNeverTies | billing/views.py:108-110 | 8*cents never ends in 5, so the pro price is strictly within half a cent of 0.8*price and the tie rule never decides |
| Money.ProPriceBounds | billing/views.py:108-110 | for a non-negative price the discounted price is between 0 and the price |
| Money.UnitPrice | billing/views.py:106-110 | a basic user pays the price unchanged; a pro user pays the discounted price |
| Money.TruncDiv | billing/views.py:75 | division truncating toward zero, as `int()` of a decimal: the quotient times the divisor is within one divisor of the dividend, on the side of zero |
| Text.ParseInt | billing/views.py:341 | `int()` accepts exactly a non-empty digit string, optionally after one sign |
| Text.ParseIntToString | billing/views.py:258 | reading back `str(i)` gives i for every integer |
| Text.SplitJoin | billing/views.py:336 | splitting a `sep`-joined list of parts that contain no `sep` gives back the parts |
| Text.Truncate | billing/views.py:119 | `s[:n]`: a prefix of s, at most n long, s itself when it fits, exactly n long when it does not |
| Text.ZeroPadValue | accounts/views.py:66 | a `:0Nd` zero-padded number reads back as the number |
| Cart.Items | billing/views.py:191 | `cart.items()` lists each key of the cart once, in insertion order, with its quantity |
| Cart.Add | billing/views.py:164 | the product's quantity rises by exactly one from its current value or 0, other quantities stay, a new key is appended at the end |
| Cart.Remove | billing/views.py:176-177 | the key is gone with its quantity, every other quantity stays, and removing an absent key leaves the cart as it was |
| Cart.AddCountsOneUnit | billing/views.py:164-167 | adding a product raises the cart's unit count by one |
| Cart.RemoveCountsAllUnits | billing/views.py:176-178 | removing a product lowers the unit count by that product's whole quantity |
| Cart.RemoveUndoesAdds | billing/views.py:164-177 | removing a product after adding it gives the same cart as removing it outright |
| CartViews.AddToCart | billing/views.py:161-169 | a missing or inactive product (404) leaves the session as it was; otherwise the cart becomes `Cart.Add` of the old cart and the reported count is the old unit count plus one |
| CartViews.RemoveFromCart | billing/views.py:174-180 | the session cart becomes `Cart.Remove` of the old cart; the rest of the session is unchanged |
| ContextProcessors.CartCount | billing/context_processors.py:1-4 | the only key is `cart_item_count`; it is 0 without a request or with an empty cart, otherwise the sum of the quantities |
| ContextProcessors.CartCountAfterAdd | billing/context_processors.py:3 | after adding a product to the cart the counter shows one more |
| Sessions.Session.SaveCart | billing/views.py:40-42 | the session's cart becomes the given cart; the pending id and the login are unchanged |
| Sessions.Session.SetPendingRegistration | accounts/views.py:57 | the session's pending-registration id is set; cart and login are unchanged |
| Sessions.Session.PopPendingRegistration | accounts/views.py:107 | the pending-registration id is removed; cart and login are unchanged |
| Sessions.Session.Flush | accounts/views.py:29 | `logout` empties the whole session: no cart, no pending id, no user |
| Sessions.Session.Login | accounts/views.py:108 | the user is logged in; the session is flushed only when a different user was logged in |
| CartMetadata.EntryText | billing/views.py:258 | a cart entry `pid:qty` contains a ':' and no '\|' |
| CartMetadata.WithColon | billing/views.py:336 | a fragment is kept exactly when it is one of the parts and contains ':'; no more are kept than there are parts |
| CartMetadata.WithColonAppend | billing/views.py:336 | the filter keeps the order: the kept fragments of two runs of parts are those of the first, then those of the second |
| CartMetadata.WithColonKeepsAll | billing/views.py:336 | when every fragment contains ':', none is dropped |
| CartMetadata.RoundTrip | billing/views.py:336 | decoding the `\|`-joined `pid:qty` entries yields one field pair per entry, in order, each reading back as the entry's product id and quantity |
| Checkout.ProductLineItem | billing/views.py:245-256 | the line item's unit amount is the per-unit price after the pro discount, its quantity is the cart's, its name is the product's English name, its description is the English description cut to its first 200 characters (so a prefix of at most 200) |
| Checkout.LiveEntriesFilter | billing/views.py:239-243 | an entry is kept exactly when it is in the cart and its product exists and is active |
| Checkout.LiveEntriesEmpty | billing/views.py:260-262 | nothing is left to buy exactly when every cart product is missing or inactive |
| Checkout.CartLines | billing/views.py:239-258 | the checkout loop builds, for exactly the live entries in cart order, their line items and their `pid:qty` metadata entries |
| Checkout.LineItemsFor | billing/views.py:239-257 | one line item per kept entry, in cart order, each built from that entry's product and quantity |
| Checkout.CartView | billing/views.py:184-218 | the page lists the live entries; the total is the sum of price times quantity over them; the pro total is that total discounted once |
| Checkout.CreateCartCheckout | billing/views.py:223-277 | an empty cart is refused first, then an unverified email, then a missing key; if no entry is live no session is created; otherwise a payment session with one line per live entry and metadata naming the user, the entries and the discount flag |
| Checkout.CreateProductCheckout | billing/views.py:98-135 | a missing key first, then an unverified email, then a missing or inactive product; otherwise one unit at the discounted price, with metadata for the product, quantity "1" and the flag |
| Checkout.CreateSubscriptionCheckout | billing/views.py:59-93 | a missing key first, then an unverified email; otherwise one monthly plan line, by price id when configured and inline from the plan price in cents otherwise, and metadata with the user and price id |
| Checkout.BasicChargeIsPageTotal | billing/views.py:189-256 | for a basic user the checkout charges exactly the total the cart page shows |
| Checkout.TwoTensAndAFive | billing/views.py:208 | prices 10.00 and 5.00 at quantities 2 and 1: page total 25.00, pro page total 20.00, pro charge 20.00 |
| Checkout.ProPageTotalCanDifferFromCharge | billing/views.py:208 | one product at 0.03, quantity 2: the pro page shows 0.05 but the pro checkout charges 0.04 |
| Reconcile.TimestampToDt | billing/views.py:396-402 | a missing or falsy value is None, a string `int()` refuses is None, otherwise the number of seconds |
| Reconcile.TimestampForms | billing/views.py:396-402 | a decimal string of n stands for n, a non-zero number for itself, the number 0 for None |
| Reconcile.LookupPk | billing/views.py:311 | `filter(pk=value).first()`: a missing value finds nothing, a value `int()` refuses raises, a found key is in the table |
| Reconcile.UpsertPurchase | billing/views.py:345-357 | the key is present afterwards with the new values, an existing row keeps its creation time, every other row is unchanged |
| Reconcile.PurchaseStep | billing/views.py:341-357 | a purchase is written exactly when the session has an id and the quantity is not negative; its key, user, quantity, flag, and amount = unit price (discounted per the metadata flag) times quantity |
| Reconcile.ApplyStep | billing/views.py:345-357 | one step raises exactly when it is a failing write and never touches users, products or subscriptions |
| Reconcile.ApplyCart | billing/views.py:337-357 | the cart loop touches only purchases |
| Reconcile.Overlay | billing/views.py:345-357 | the purchases after a set of writes are the old keys plus the written keys |
| Reconcile.OverlayCompose | billing/views.py:345-357 | two rounds of writes equal one round of their union, later writes winning |
| Reconcile.OverlayNothing | billing/views.py:345-357 | no writes leave the purchases as they were |
| Reconcile.OverlayIdempotent | billing/views.py:345-357 | writing the same set twice equals writing it once, creation times kept from the first |
| Reconcile.ApplyCartIsOverlay | billing/views.py:337-357 | the fragment-by-fragment loop equals overlaying all the cart's writes at once, raising exactly when some fragment raises |
| Reconcile.UpsertSubscription | billing/views.py:319-328 | the subscription id is present afterwards with every given default: user, customer, price id, status and period end; creation time kept for an existing row, updated time now, other rows unchanged |
| Reconcile.Promote | billing/views.py:329-331 | the user becomes pro and nothing else changes; a pro user is left as is |
| Reconcile.SubscriptionActivated | billing/views.py:315-331 | without a subscription id nothing changes; otherwise the row under that id is "active" for the user, with the session's customer or "", the metadata price id or "", and the period end read from `expires_at`; the other subscription rows are unchanged and the user is promoted |
| Reconcile.CheckoutCompleted | billing/views.py:307-379 | a missing user is a no-op, an unparseable user id raises with nothing changed, any mode other than subscription or payment changes nothing, and only the subscription mode touches users or subscriptions |
| Reconcile.SubscriptionUpdated | billing/views.py:382-393 | without an id nothing changes; an unknown id raises with nothing changed; a known id takes the event's customer, status (default "incomplete") and period end, other rows and all users unchanged |
| Reconcile.Dispatch | billing/views.py:296-304 | any event type other than the three handled ones changes nothing |
| Reconcile.StripeWebhook | billing/views.py:280-304 | with a secret, a failed verification is 400 "Invalid webhook signature"; without one, a failed parse is 400 "Invalid payload"; a 400 changes nothing; 200 exactly when an event was decoded and its handler did not raise, 500 exactly when it raised |
| ReconcileProperties.LookupPkKeys | billing/views.py:311 | a lookup by primary key depends only on which keys the table holds |
| ReconcileProperties.CartWritesWellKeyed | billing/views.py:345-357 | each cart write sits under its own (session, product) key, names an existing product and the event's user |
| ReconcileProperties.StepReplay | billing/views.py:345-357 | applying the same purchase step again leaves the tables as the first application did |
| ReconcileProperties.CartReplay | billing/views.py:337-357 | replaying a cart loop yields the same tables and the same outcome |
| ReconcileProperties.CheckoutCompletedReplay | billing/views.py:307-379 | delivering a checkout completion twice gives the same outcome and the same users, products and purchases (one row per key), subscriptions equal except their updated time |
| ReconcileProperties.SubscriptionActivatedReplay | billing/views.py:319-331 | activating the same subscription twice leaves users, purchases and the subscription row as the first time, up to its updated time |
| ReconcileProperties.PaymentReplay | billing/views.py:332-379 | recording the same payment completion twice gives the same tables and outcome as once |
| ReconcileProperties.SubscriptionUpdatedReplay | billing/views.py:382-393 | delivering a subscription update twice gives the same outcome and tables equal except the updated time |
| ReconcileProperties.WebhookReplay | billing/views.py:280-304 | a redelivered webhook gets the same response and leaves the tables as the first delivery did, up to updated times |
| ReconcileProperties.WebhookOnlyPromotes | billing/views.py:329-331 | a webhook changes a user, if at all, only by making them pro, and adds or removes no user |
| ReconcileProperties.WebhookNeverDowngrades | billing/views.py:329-331 | a pro user stays pro after any webhook |
| ReconcileProperties.PriceLockedAtCheckout | billing/views.py:334-355 | the purchases a payment completion records do not depend on the users' current plan: the discount comes from the metadata flag |
| ReconcileProperties.SingleProductStepFits | billing/views.py:359-379 | the single-product write names an existing product and user under its own key |
| ReconcileProperties.ApplyStepKeepsConsistent | billing/views.py:345-357 | a fitting write keeps every purchase under its key and pointing at an existing user and product |
| ReconcileProperties.ApplyCartKeepsConsistent | billing/views.py:337-357 | the cart loop keeps the tables consistent |
| ReconcileProperties.SubscriptionActivatedKeepsConsistent | billing/views.py:319-331 | activating a subscription keeps every subscription under its id and pointing at an existing user |
| ReconcileProperties.CheckoutCompletedKeepsConsistent | billing/views.py:307-379 | a checkout completion keeps the tables consistent |
| ReconcileProperties.SubscriptionUpdatedKeepsConsistent | billing/views.py:382-393 | a subscription update keeps the tables consistent |
| ReconcileProperties.WebhookKeepsConsistent | billing/views.py:280-304 | any webhook keeps the tables consistent |
| WebhookViews.ActivateSubscription | billing/views.py:319-331 | the database's billing tables become those of `Reconcile.SubscriptionActivated`; registrations untouched; the database invariants (ids under their keys, unique e-mails) are kept |
| WebhookViews.RecordStep | billing/views.py:345-357 | one `update_or_create` on the database, equal to `Reconcile.ApplyStep`; the database invariants (ids under their keys, unique e-mails) are kept |
| WebhookViews.RecordCart | billing/views.py:337-357 | the loop over cart fragments leaves the database as `Reconcile.ApplyCart` says and reports its raise; the database invariants (ids under their keys, unique e-mails) are kept |
| WebhookViews.HandleCheckoutCompleted | billing/views.py:307-379 | the handler leaves the database as `Reconcile.CheckoutCompleted` says and reports its raise; the database invariants (ids under their keys, unique e-mails) are kept |
| WebhookViews.HandleSubscriptionUpdated | billing/views.py:382-393 | the handler leaves the database as `Reconcile.SubscriptionUpdated` says; the database invariants (ids under their keys, unique e-mails) are kept |
| WebhookViews.StripeWebhook | billing/views.py:280-304 | the view leaves the database and answers as `Reconcile.StripeWebhook` says; the database invariants (ids under their keys, unique e-mails) are kept |
| WebhookViews.CheckoutSuccess | billing/views.py:141-152 | with a session id, a key and a retrieved session, the completion is reconciled as the webhook would; a failed retrieve changes nothing; the cart is dropped unless the handler raised; the database invariants (ids under their keys, unique e-mails) are kept |
| CheckoutReconcile.LiveEntriesDistinct | billing/views.py:239-258 | the entries a cart checkout keeps name each product at most once |
| CheckoutReconcile.LiveEntriesMembers | billing/views.py:239-243 | every kept entry is one of the cart's entries |
| CheckoutReconcile.FragmentWrites | billing/views.py:336-357 | a fragment produced from an entry decodes to a write of that product and quantity |
| CheckoutReconcile.CartWritesOfEntries | billing/views.py:336-357 | the writes of an encoded cart raise nothing, cover exactly the (session, product) keys of its entries, with each entry's values |
| CheckoutReconcile.DecodeEmpty | billing/views.py:335-336 | an empty cart string decodes to no fragments |
| CheckoutReconcile.DecodeEncode | billing/views.py:336 | decoding the metadata the cart checkout wrote gives back one field pair per entry, and a non-empty cart never encodes to "" |
| CheckoutReconcile.CartCompletionReadsEntries | billing/views.py:333-336 | a completion carrying a cart checkout's metadata runs the cart loop over exactly its entries, with the checkout's discount flag |
| CheckoutReconcile.CartEntriesRecorded | billing/views.py:337-357 | the cart loop over entries of existing products adds exactly their keys, with each row's values, and leaves other rows alone |
| CheckoutReconcile.CartCheckoutIsRecorded | billing/views.py:239-357 | completing a cart checkout records one purchase per line item, for the same user, product and quantity, at the amount the line charged, with the discount flag |
| CheckoutReconcile.ProductCheckoutIsRecorded | billing/views.py:359-379 | completing a product checkout records one purchase of that product for the user, at the amount the line charged |
| CheckoutReconcile.SubscriptionCheckoutIsRecorded | billing/views.py:315-331 | completing a subscription checkout makes the user pro, with one active subscription row for them carrying the checkout's price id, the session's customer and the period end from `expires_at`, and no purchase |
| Accounts.VerifiedIffStamped | accounts/models.py:59-61 | a user is verified exactly when it is what `verify_email` leaves at some instant |
| Accounts.PendingExpiry | accounts/models.py:97-99 | a pending registration is valid at its expiry instant and not one second later; once expired it stays expired |
| Accounts.CodeExpiry | accounts/models.py:77-79 | a verification code is valid at its expiry instant and not one second later; once expired it stays expired |
| Accounts.VerifyEmail | accounts/models.py:63-65 | the user becomes verified at the given time and nothing else changes |
| Accounts.CreateUserRow | accounts/models.py:13-20 | an empty email is refused first; then saving is refused exactly when a stored user already has the e-mail (the unique column of line 47); otherwise a row with the given email, hash and extra fields, user type defaulting to basic |
| Accounts.CreatedUserKeepsEmailsUnique | accounts/models.py:19 | storing a created user under a fresh id keeps every e-mail on at most one user |
| Accounts.CreateUser | accounts/models.py:22-25 | `is_staff` and `is_superuser` default to False, caller values kept; succeeds exactly when the e-mail is non-empty and not yet in use, and a taken e-mail is the save's integrity error |
| Accounts.CreateSuperuser | accounts/models.py:27-36 | an explicit `is_staff=False` or `is_superuser=False` is refused (in that order); then an empty or taken e-mail as for `create_user`; a created superuser is staff and superuser and is verified now unless a time was passed |
| AccountViews.LoginDecision | accounts/views.py:26-36 | refused as disabled exactly when disabled, as unverified exactly when enabled but unverified, admitted otherwise |
| AccountViews.LoginFormValid | accounts/views.py:26-36 | a disabled user is refused first, then an unverified one, and a refused login flushes the session; an admitted one logs the user in, emptying the cart and pending id when another user was logged in and keeping both otherwise |
| AccountViews.MarkVerified | accounts/models.py:63-65 | the stored user is verified, nothing else in the database changes |
| AccountViews.GenerateCode | accounts/views.py:65-66 | six ASCII digits whose value is the drawn number |
| AccountViews.GenerateCodeInjective | accounts/views.py:66 | different draws give different codes |
| AccountViews.WithoutEmail | accounts/views.py:47 | exactly the pending rows with other emails remain, unchanged |
| AccountViews.Register | accounts/views.py:39-62 | no form: nothing changes; an email already in use: nothing changes; otherwise the pending rows for that email are replaced by one new row with the code and an expiry ten minutes on, and the session holds its id |
| AccountViews.RegisterLeavesOnePending | accounts/views.py:47-55 | after a registration exactly one pending row carries that email |
| AccountViews.FreshCodeAcceptedForTenMinutes | accounts/views.py:54 | a new registration's code is accepted exactly up to and including ten minutes after creation |
| AccountViews.NewVerifiedUser | accounts/views.py:97-105 | the new user has the pending email, names and password hash, is basic, verified now, enabled and not staff |
| AccountViews.DeletePending | accounts/views.py:106 | one pending row is removed, nothing else |
| AccountViews.InsertVerifiedUser | accounts/views.py:97-105 | one new user under the next id, nothing else |
| AccountViews.VerifyEmail | accounts/views.py:80-115 | no pending id: register page; an unknown id: 404; with a pending row, the code form is shown exactly when no code was posted, and a posted code is refused exactly when it is wrong or expired, gives "account exists" exactly when accepted for a taken email and verifies exactly when accepted for a free one; refusals change nothing; "account exists" deletes the pending row and clears the session id, keeping the login and cart; verifying creates one verified basic user, deletes the row, and logs the user in, the cart emptied only when another user was logged in |
| Middleware.RequestUser | accounts/middleware.py:13 | the request has a user exactly when the session names an existing one |
| Middleware.Call | accounts/middleware.py:12-17 | a disabled logged-in user is logged out and redirected without the downstream response; everyone else gets the downstream response with the session untouched |
| Middleware.AnonymousPasses | accounts/middleware.py:13 | an anonymous request is never blocked |
| Middleware.BlocksExactlyDisabled | accounts/middleware.py:13 | the middleware blocks exactly the requests of an existing disabled user |
| BillingModels.DeleteProduct | billing/models.py:38 | deleting a product is refused while a purchase refers to it; otherwise only that row goes |
| BillingModels.DeleteProductKeepsPurchasesValid | billing/models.py:38 | after a permitted delete every purchase still refers to an existing product |
| BillingModels.DeleteCategory | catalog/models.py:27 | deleting a category is refused exactly when one of its products has a purchase (PROTECT on the cascade); otherwise the category and exactly its products go, every other row unchanged |
| BillingModels.DeleteCategoryKeepsReferences | billing/models.py:38 | after a permitted category delete every remaining product has its category and every purchase its product |
| Importer.SourceText | catalog/management/commands/import_products.py:43 | the stored `source_id` of a string id is the string, of a number its decimal text, which reads back as the number |
| Importer.DisplayOrder | catalog/management/commands/import_products.py:49 | a missing or zero display order is 0, a negative one is refused by the positive-integer column |
| Importer.CategoryRow | catalog/management/commands/import_products.py:42-50 | the row is keyed by the item's id; each name and the description the feed gives is stored, a missing one is ""; a given `active` is stored, a missing one is True; a given non-negative order is stored, a missing or zero one is 0 |
| Importer.ProductRow | catalog/management/commands/import_products.py:65-78 | every name, description, image URL and price the feed gives is stored, a missing text is "" and a missing price 0; a given `active`/`popular` is stored, missing ones are True/False; a given non-negative order is stored, a missing or zero one is 0; the category is the one resolved |
| Importer.MapKey | catalog/management/commands/import_products.py:52 | the key a category is filed under reads as the category's stored id; as written it is the feed's own id for a created row and the stored text for an updated one; with the text keying it is always the stored text |
| Importer.LookupKey | catalog/management/commands/import_products.py:61 | the key a product's category is looked up by reads as its `category_id`; as written it is the raw `category_id` |
| Importer.CategoryLoopRaises | catalog/management/commands/import_products.py:41-51 | under either keying, the category pass stops with an error exactly when some item lacks an id or has a negative order |
| Importer.CategoryLoopCounts | catalog/management/commands/import_products.py:41-54 | under either keying, a completed pass counts created plus updated equal to the number of feed categories, and the table gains exactly the feed ids |
| Importer.CategoryLoopFilesFeedIds | catalog/management/commands/import_products.py:52 | under either keying, the map's keys, read as stored text, gain exactly the feed's category ids, whether a key is the raw number or the text |
| Importer.CategoryLoopCreatesNewRows | catalog/management/commands/import_products.py:42-54 | the table grows by exactly the number counted as created |
| Importer.CategoryLoopKeepsOtherRows | catalog/management/commands/import_products.py:42 | a category whose id is not in the feed is left as it was |
| Importer.CategoryLoopKeepsOtherKeys | catalog/management/commands/import_products.py:52 | a map entry whose key does not read as a feed id is left as it was |
| Importer.CategoryMapSound | catalog/management/commands/import_products.py:52 | under either keying, every map entry leads to the category stored under its key's text |
| Importer.CategoryMapTextKeyed | catalog/management/commands/import_products.py:52 | with the text keying, every key of the map is a text |
| Importer.KeyingOnlyChangesMap | catalog/management/commands/import_products.py:41-54 | the command as written and the text keying write the same category rows, counts and exception; only the map differs |
| Importer.TextIdsKeyAlike | catalog/management/commands/import_products.py:52 | for a feed whose category ids are all strings, the command as written builds the same map as the text keying |
| Importer.StoredCategoriesKeyedByTextAsWritten | catalog/management/commands/import_products.py:52 | as written, when every feed category is already stored, the map the pass builds has only text keys |
| Importer.CategoryOf | catalog/management/commands/import_products.py:61 | a product's category resolves exactly when its lookup key is in the map, and in a sound map it is the category stored under the text of its `category_id` |
| Importer.ByTextResolvesStoredText | catalog/management/commands/import_products.py:61 | with the text keying, a product's category resolves exactly when the text of its `category_id` is a key's text |
| Importer.ProductLoopRaises | catalog/management/commands/import_products.py:60-79 | under either keying, the product pass stops with an error exactly when some product with a resolving category lacks an id or has a negative order |
| Importer.ProductLoopCounts | catalog/management/commands/import_products.py:59-81 | created plus updated equals the number of products whose category resolves; skipped products are counted in neither |
| Importer.ProductLoopImportsIds | catalog/management/commands/import_products.py:60-79 | a completed pass adds rows for exactly the imported ids; a skipped product gets no row |
| Importer.ProductLoopCreatesNewRows | catalog/management/commands/import_products.py:65-81 | the product table grows by exactly the number counted as created |
| Importer.ProductLoopKeepsOthers | catalog/management/commands/import_products.py:65 | a product not imported from the feed is left as it was |
| Importer.TextIdsLookUpAlike | catalog/management/commands/import_products.py:61 | for products whose category ids are all strings, the command as written resolves and imports as the text keying does |
| Importer.ProductsCoverFeed | catalog/management/commands/import_products.py:59-81 | after a completed pass every product whose category resolves has its row |
| Importer.CategoriesCoverFeed | catalog/management/commands/import_products.py:41-54 | after a completed pass every feed category has its row |
| Importer.ReimportSkipsProductsAsWritten | catalog/management/commands/import_products.py:52-64 | as written, a feed with numeric ids imports its product the first time and skips it the second time |
| Importer.ReimportSkipsNumericCategoryIdsAsWritten | catalog/management/commands/import_products.py:52-64 | as written, re-importing a feed whose categories are all stored skips every product whose `category_id` is a number |
| Importer.ReimportUpdatesProducts | catalog/management/commands/import_products.py:52-64 | with the text keying, the second import of that feed updates the product |
| Importer.SoundTextMapsEqual | catalog/management/commands/import_products.py:52 | two sound, text-keyed maps whose keys read the same are equal |
| Importer.ReimportResolvesSameProducts | catalog/management/commands/import_products.py:38-64 | with the text keying, whatever the tables held, an import of the same feed builds the same map, keyed by exactly the feed's category ids, raises alike and imports as many products |
| Importer.AsWrittenResolvesWithinByText | catalog/management/commands/import_products.py:52-61 | the command as written resolves no product the text keying would not, and resolves it to the same category |
| Importer.CatalogTables.ImportCategories | catalog/management/commands/import_products.py:38-56 | the loop, filing each category under the id of the object the upsert returns, leaves the tables, the map and the counters as the as-written category pass says; products untouched |
| Importer.CatalogTables.ImportProducts | catalog/management/commands/import_products.py:58-82 | the loop, looking up the raw `category_id`, leaves the products and counters as the as-written product pass says; categories untouched |
| Importer.CatalogTables.Handle | catalog/management/commands/import_products.py:22-82 | a payload that is not an object or lacks either key is refused with nothing written; otherwise the categories are imported, then the products under the map just built, both as the command writes them; an exception in the category pass reports nothing, one in the product pass leaves the category counts reported, and a full run reports all four counts |

## Left out

- The Stripe calls (`Session.create`, `Session.retrieve`, `Webhook.construct_event` and its signature check) are oracles: their results are parameters, and a retrieval failure is a missing result.
- JSON decoding of the webhook body and of the import feed is not modelled: the decoded event or payload is the input. A body that decodes to something other than an object, JSON `null` values, and values of unexpected types are not modelled.
- The importer's HTTP fetch (`requests.get`, `raise_for_status`) is network I/O; the model starts from the decoded payload.
- Sending the verification email is left out. An SMTP failure after the pending row is created, which would leave the row without a session id, is not modelled.
- Password hashing (`make_password`, `set_password`) is a foreign call; the hash is an input string.
- `random.randint` is the drawn number, given as a parameter.
- `timezone.now()` is a parameter. Timestamps are integer seconds, time zones are not modelled, and an out-of-range `fromtimestamp` (which would raise) is not modelled.
- Rendering, `messages`, `redirect`, `reverse` and URL building are presentation; outcomes are tagged results.
- The module-level `stripe.api_key` assignment is global configuration, not modelled.
- Routing, admin, forms and field widgets are left out. The registration form's validation is a given `Option` of a cleaned form.
- Concurrent deliveries and database uniqueness arbitration are left out; the store is sequential.
- The importer's `self.stdout.write` lines are the counts in `Importer.ImportOutcome`; the "Fetching data" line and the skipped-product warnings are output only and are not modelled.
- Python `int()` also accepts surrounding whitespace, underscores and non-ASCII digits; those forms are not modelled.
- Column length limits and decimal precision limits (`max_digits=8` on the product price) are not modelled, and neither are the status `choices` of a subscription, which Django does not enforce on save. Neither are the case-insensitive collation of `filter(email=...)` and `normalize_email`.
- The importer's prices are integer cents; decimal strings with more than two places are not modelled.
- The middleware's downstream handler is a given response; its own effects are not modelled.
- Python dictionaries treat `True` and `1` as the same key; feed ids of that kind are not modelled.
- The `ordering` of categories and products is an ORDER BY under the database's collation; no modelled operation lists the catalog, so the listing order is not modelled.
- No modelled flow reads a `VerificationCode`: `verify_email` checks the pending registration's code, so `Accounts.CodeIsValid` is stated only by `Accounts.CodeExpiry`.
- Checkout.LiveEntries: its membership property is stated by the lemmas `Checkout.LiveEntriesFilter` and `CheckoutReconcile.LiveEntriesMembers` rather than by its own contract.

## Findings

| source | as written | input that shows it | evidently intended | confidence | as-written member | corrected member |
|---|---|---|---|---|---|---|
| catalog/management/commands/import_products.py:52 | the category map is keyed by the `source_id` attribute of the object `update_or_create` returns: the feed's own value for a created row, but the stored text for an updated one; products then look up their raw `category_id` | a feed with category `{"id": 1}` and product `{"id": 1, "category_id": 1}` imported twice: the second run finds no category for the product and skips it | every run resolves a product's category whether the category was just created or updated, e.g. by keying and looking up `str(id)` | not executed | Importer.ReimportSkipsProductsAsWritten | Importer.ReimportResolvesSameProducts |

`Importer.CatalogTables` runs the command as written, so its methods carry
the discrepancy; `Importer.ReimportSkipsNumericCategoryIdsAsWritten` states
it for every feed whose categories are already stored. The corrected
definition is the `ByText` keying, for which
`Importer.ReimportResolvesSameProducts` proves the intended property.
