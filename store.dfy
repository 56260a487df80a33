/**
 * The database tables the views change in place. Primary keys of users and
 * pending registrations are handed out from counters, as the database's
 * auto-increment does.
 */
module Store {
  import Accounts
  import Catalog
  import BillingModels
  import Reconcile

  class Database {
    var users: map<nat, Accounts.User>
    var pendingRegistrations: map<nat, Accounts.PendingRegistration>
    var nextUserId: nat
    var nextPendingId: nat
    var products: map<nat, Catalog.Product>
    var purchases: map<BillingModels.PurchaseKey, BillingModels.Purchase>
    var subscriptions: map<string, BillingModels.Subscription>

    /**
     * Every row sits under its own key, every key in use is below its
     * counter, and no two users, nor two pending registrations, share an
     * e-mail address (both columns are unique).
     */
    ghost predicate Valid()
      reads this
    {
      && (forall id :: id in users ==> id < nextUserId && users[id].id == id)
      && (forall id :: id in pendingRegistrations ==> id < nextPendingId && pendingRegistrations[id].id == id)
      && (forall a, b :: a in users && b in users && users[a].email == users[b].email ==> a == b)
      && (forall a, b :: a in pendingRegistrations && b in pendingRegistrations ==>
            pendingRegistrations[a].email == pendingRegistrations[b].email ==> a == b)
    }

    /** The tables the payment webhook works on. */
    function BillingTables(): (t: Reconcile.Tables)
      reads this
      ensures t.users == users && t.products == products
      ensures t.purchases == purchases && t.subscriptions == subscriptions
    {
      Reconcile.Tables(users, products, purchases, subscriptions)
    }

    constructor ()
      ensures Valid()
      ensures users == map[] && pendingRegistrations == map[] && products == map[]
      ensures purchases == map[] && subscriptions == map[]
      ensures nextUserId == 1 && nextPendingId == 1
    {
      users, pendingRegistrations := map[], map[];
      nextUserId, nextPendingId := 1, 1;
      products, purchases, subscriptions := map[], map[], map[];
    }
  }
}
