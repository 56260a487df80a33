/**
 * The registration and login flow of accounts/views.py: the login gate,
 * `register`, `_generate_code` and `verify_email`. Form parsing and
 * password hashing happen before these run: a valid form arrives as its
 * cleaned values, with the password already hashed.
 */
module AccountViews {
  import opened Wrappers
  import Text
  import Accounts
  import Cart
  import Sessions
  import Store

  /** Verification codes are six digits and live ten minutes. */
  const CodeLength: nat := 6
  const CodeLifetime: int := 600
  const MaxCode: nat := 999999

  // ---------------------------------------------------------------- login

  datatype LoginOutcome = AccountDisabled | EmailUnverified | LoggedIn

  /** `EmailLoginView.form_valid`: a disabled account is refused first, then an unverified one. */
  function LoginDecision(u: Accounts.User): (r: LoginOutcome)
    ensures r == AccountDisabled <==> u.isDisabled
    ensures r == EmailUnverified <==> !u.isDisabled && !Accounts.IsVerified(u)
    ensures r == LoggedIn <==> !u.isDisabled && Accounts.IsVerified(u)
  {
    if u.isDisabled then AccountDisabled
    else if !Accounts.IsVerified(u) then EmailUnverified
    else LoggedIn
  }

  /** A refused login logs the session out (it is flushed); an accepted one logs the user in. */
  method LoginFormValid(session: Sessions.Session, u: Accounts.User) returns (r: LoginOutcome)
    requires session.Valid()
    modifies session
    ensures session.Valid()
    ensures r == LoginDecision(u)
    ensures r != LoggedIn ==>
      session.CartValue() == Cart.Empty && session.authUserId == None && session.pendingRegistrationId == None
    ensures r == LoggedIn ==> session.authUserId == Some(u.id)
    ensures r == LoggedIn && old(session.authUserId).Some? && old(session.authUserId) != Some(u.id) ==>
      session.CartValue() == Cart.Empty && session.pendingRegistrationId == None
    ensures r == LoggedIn && (old(session.authUserId).None? || old(session.authUserId) == Some(u.id)) ==>
      && session.CartValue() == old(session.CartValue())
      && session.pendingRegistrationId == old(session.pendingRegistrationId)
  {
    r := LoginDecision(u);
    if r != LoggedIn {
      session.Flush();
    } else {
      session.Login(u.id);
    }
  }

  /** `user.is_verified` and `user.verify_email()` on a stored user. */
  method MarkVerified(db: Store.Database, userId: nat, now: int)
    requires db.Valid() && userId in db.users
    modifies db
    ensures db.Valid()
    ensures db.users == old(db.users)[userId := Accounts.VerifyEmail(old(db.users[userId]), now)]
    ensures Accounts.IsVerified(db.users[userId])
    ensures db.pendingRegistrations == old(db.pendingRegistrations)
    ensures db.nextUserId == old(db.nextUserId) && db.nextPendingId == old(db.nextPendingId)
    ensures db.BillingTables().(users := old(db.users)) == old(db.BillingTables())
  {
    db.users := db.users[userId := Accounts.VerifyEmail(db.users[userId], now)];
  }

  // ---------------------------------------------------------------- registration

  /** `_generate_code` for the integer drawn from 0..999999: six digits whose value is the draw. */
  function GenerateCode(drawn: nat): (code: string)
    requires drawn <= MaxCode
    ensures |code| == CodeLength && Text.AllDigits(code)
    ensures Text.DigitsValue(code) == drawn
    ensures Text.ParseInt(code) == Some(drawn as int)
  {
    Text.NatToStringLength(drawn, CodeLength);
    Text.ZeroPadValue(drawn, CodeLength);
    Text.ZeroPad(drawn, CodeLength)
  }

  /** Distinct draws give distinct codes. */
  lemma GenerateCodeInjective(a: nat, b: nat)
    requires a <= MaxCode && b <= MaxCode && GenerateCode(a) == GenerateCode(b)
    ensures a == b
  {
  }

  /** `PendingRegistration.objects.filter(email=email).delete()`. */
  function WithoutEmail(pending: map<nat, Accounts.PendingRegistration>, email: string)
    : (r: map<nat, Accounts.PendingRegistration>)
    ensures forall id :: id in r <==> id in pending && pending[id].email != email
    ensures forall id :: id in r ==> r[id] == pending[id]
  {
    map id | id in pending && pending[id].email != email :: pending[id]
  }

  /** The cleaned values of a valid registration form. */
  datatype RegistrationForm = RegistrationForm(email: string, firstName: string, lastName: string, passwordHash: string)

  datatype RegisterOutcome = ShowRegisterForm | EmailTaken | VerificationStarted(pendingId: nat)

  /**
   * `register`. Without a valid POSTed form nothing changes. An e-mail that
   * already has a user is refused and nothing changes. Otherwise every
   * pending registration for that e-mail is deleted, one new one is created
   * with a fresh code that expires ten minutes from now, and its id is put
   * in the session.
   */
  method Register(db: Store.Database, session: Sessions.Session, form: Option<RegistrationForm>,
                  drawn: nat, now: int)
    returns (r: RegisterOutcome)
    requires drawn <= MaxCode
    requires db.Valid() && session.Valid()
    modifies db, session
    ensures db.Valid() && session.Valid()
    ensures db.users == old(db.users) && db.nextUserId == old(db.nextUserId)
    ensures db.BillingTables() == old(db.BillingTables())
    ensures session.CartValue() == old(session.CartValue()) && session.authUserId == old(session.authUserId)
    ensures form.None? ==> r == ShowRegisterForm
    ensures form.Some? && Accounts.EmailInUse(old(db.users), form.value.email) ==> r == EmailTaken
    ensures !r.VerificationStarted? ==>
      && db.pendingRegistrations == old(db.pendingRegistrations) && db.nextPendingId == old(db.nextPendingId)
      && session.pendingRegistrationId == old(session.pendingRegistrationId)
    ensures r.VerificationStarted? <==> form.Some? && !Accounts.EmailInUse(old(db.users), form.value.email)
    ensures r.VerificationStarted? ==>
      var f := form.value;
      var id := old(db.nextPendingId);
      && r.pendingId == id
      && db.pendingRegistrations == WithoutEmail(old(db.pendingRegistrations), f.email)[id :=
           Accounts.PendingRegistration(id, f.email, f.firstName, f.lastName, f.passwordHash,
                                        GenerateCode(drawn), now, now + CodeLifetime)]
      && db.nextPendingId == id + 1
      && session.pendingRegistrationId == Some(id)
  {
    if form.None? {
      return ShowRegisterForm;
    }
    var f := form.value;
    if exists id :: id in db.users && db.users[id].email == f.email {
      return EmailTaken;
    }
    var id := db.nextPendingId;
    var row := Accounts.PendingRegistration(id, f.email, f.firstName, f.lastName, f.passwordHash,
                                            GenerateCode(drawn), now, now + CodeLifetime);
    db.pendingRegistrations := WithoutEmail(db.pendingRegistrations, f.email)[id := row];
    db.nextPendingId := id + 1;
    session.SetPendingRegistration(id);
    r := VerificationStarted(id);
  }

  /** After a registration starts, exactly one pending row carries its e-mail: the new one. */
  lemma RegisterLeavesOnePending(pending: map<nat, Accounts.PendingRegistration>, id: nat,
                                 row: Accounts.PendingRegistration)
    requires id !in pending && row.id == id
    ensures var after := WithoutEmail(pending, row.email)[id := row];
      (set k | k in after && after[k].email == row.email) == {id}
  {
  }

  /** The code a registration mails out is accepted up to and including ten minutes after, and no later. */
  lemma FreshCodeAcceptedForTenMinutes(f: RegistrationForm, id: nat, drawn: nat, created: int, t: int)
    requires drawn <= MaxCode
    ensures var row := Accounts.PendingRegistration(id, f.email, f.firstName, f.lastName, f.passwordHash,
                                                     GenerateCode(drawn), created, created + CodeLifetime);
      CodeAccepted(row, GenerateCode(drawn), t) <==> t <= created + CodeLifetime
  {
  }

  // ---------------------------------------------------------------- verification

  datatype VerifyOutcome =
    | NoRegistration
    | PendingNotFound
    | ShowCodeForm
    | InvalidOrExpiredCode
    | AccountExists
    | Verified(userId: nat)

  /** The user `verify_email` creates: basic, verified now, with the pending row's names and password hash. */
  function NewVerifiedUser(id: nat, p: Accounts.PendingRegistration, now: int): (u: Accounts.User)
    ensures u.id == id && u.email == p.email && u.passwordHash == p.passwordHash
    ensures u.firstName == p.firstName && u.lastName == p.lastName
    ensures u.userType == Accounts.Basic && Accounts.IsVerified(u) && u.emailVerifiedAt == Some(now)
    ensures !u.isDisabled && !u.isStaff && !u.isSuperuser
  {
    Accounts.User(id, p.email, p.passwordHash, p.firstName, p.lastName, Accounts.Basic,
                  false, false, false, Some(now))
  }

  /** The code is accepted when it is the pending row's code and the row has not expired. */
  predicate CodeAccepted(p: Accounts.PendingRegistration, code: string, now: int) {
    p.code == code && Accounts.PendingIsValid(p, now)
  }

  /** `pending.delete()`. */
  method DeletePending(db: Store.Database, id: nat)
    requires db.Valid()
    modifies db
    ensures db.Valid()
    ensures db.pendingRegistrations == old(db.pendingRegistrations) - {id}
    ensures db.users == old(db.users) && db.nextUserId == old(db.nextUserId) && db.nextPendingId == old(db.nextPendingId)
    ensures db.BillingTables() == old(db.BillingTables())
  {
    db.pendingRegistrations := db.pendingRegistrations - {id};
  }

  /** `user.save()` for the user built from a pending registration whose e-mail has no user yet. */
  method InsertVerifiedUser(db: Store.Database, p: Accounts.PendingRegistration, now: int) returns (userId: nat)
    requires db.Valid() && !Accounts.EmailInUse(db.users, p.email)
    modifies db
    ensures db.Valid()
    ensures userId == old(db.nextUserId) && db.nextUserId == userId + 1
    ensures db.users == old(db.users)[userId := NewVerifiedUser(userId, p, now)]
    ensures db.pendingRegistrations == old(db.pendingRegistrations) && db.nextPendingId == old(db.nextPendingId)
    ensures db.products == old(db.products) && db.purchases == old(db.purchases)
    ensures db.subscriptions == old(db.subscriptions)
  {
    userId := db.nextUserId;
    db.users := db.users[userId := NewVerifiedUser(userId, p, now)];
    db.nextUserId := userId + 1;
  }

  /**
   * `verify_email`, with `code` the cleaned code of a valid POSTed form
   * (None otherwise). No pending id in the session sends the visitor to
   * register, an id with no row is a 404, and without a valid form the
   * page is shown; none of these changes anything. A wrong or expired code
   * changes nothing either. An accepted code for an e-mail that has meanwhile
   * got a user deletes the pending row and forgets it; otherwise it creates
   * one verified basic user, deletes the pending row, forgets it, and logs
   * the new user in.
   */
  method VerifyEmail(db: Store.Database, session: Sessions.Session, code: Option<string>, now: int)
    returns (r: VerifyOutcome)
    requires db.Valid() && session.Valid()
    modifies db, session
    ensures db.Valid() && session.Valid()
    ensures db.products == old(db.products) && db.purchases == old(db.purchases)
    ensures db.subscriptions == old(db.subscriptions) && db.nextPendingId == old(db.nextPendingId)
    ensures var pid := old(session.pendingRegistrationId);
      && (pid.None? || pid == Some(0) <==> r == NoRegistration)
      && (pid.Some? && pid != Some(0) && pid.value !in old(db.pendingRegistrations) <==> r == PendingNotFound)
    ensures r.NoRegistration? || r.PendingNotFound? || r.ShowCodeForm? || r.InvalidOrExpiredCode? ==>
      && db.users == old(db.users) && db.nextUserId == old(db.nextUserId)
      && db.pendingRegistrations == old(db.pendingRegistrations)
      && session.pendingRegistrationId == old(session.pendingRegistrationId)
      && session.authUserId == old(session.authUserId) && session.CartValue() == old(session.CartValue())
    ensures var pid := old(session.pendingRegistrationId);
      pid.Some? && pid != Some(0) && pid.value in old(db.pendingRegistrations) ==>
        var p := old(db.pendingRegistrations[pid.value]);
        && (r == ShowCodeForm <==> code.None?)
        && (code.Some? ==>
              && (r == InvalidOrExpiredCode <==> !CodeAccepted(p, code.value, now))
              && (r == AccountExists <==> CodeAccepted(p, code.value, now) && Accounts.EmailInUse(old(db.users), p.email))
              && (r.Verified? <==> CodeAccepted(p, code.value, now) && !Accounts.EmailInUse(old(db.users), p.email)))
    ensures r.AccountExists? ==>
      && db.users == old(db.users) && db.nextUserId == old(db.nextUserId)
      && db.pendingRegistrations == old(db.pendingRegistrations) - {old(session.pendingRegistrationId.value)}
      && session.pendingRegistrationId == None
      && session.authUserId == old(session.authUserId) && session.CartValue() == old(session.CartValue())
    ensures r.Verified? ==>
      var id := old(session.pendingRegistrationId.value);
      var p := old(db.pendingRegistrations[id]);
      && r.userId == old(db.nextUserId)
      && db.users == old(db.users)[r.userId := NewVerifiedUser(r.userId, p, now)]
      && db.nextUserId == r.userId + 1
      && db.pendingRegistrations == old(db.pendingRegistrations) - {id}
      && session.pendingRegistrationId == None
      && session.authUserId == Some(r.userId)
    ensures r.Verified? && old(session.authUserId).Some? && old(session.authUserId) != Some(r.userId) ==>
      session.CartValue() == Cart.Empty
    ensures r.Verified? && (old(session.authUserId).None? || old(session.authUserId) == Some(r.userId)) ==>
      session.CartValue() == old(session.CartValue())
  {
    var pendingId := session.pendingRegistrationId;
    if pendingId.None? || pendingId == Some(0) {
      return NoRegistration;
    }
    var id := pendingId.value;
    if id !in db.pendingRegistrations {
      return PendingNotFound;
    }
    if code.None? {
      return ShowCodeForm;
    }
    var p := db.pendingRegistrations[id];
    if !(p.code == code.value && Accounts.PendingIsValid(p, now)) {
      return InvalidOrExpiredCode;
    }
    if exists u :: u in db.users && db.users[u].email == p.email {
      session.PopPendingRegistration();
      DeletePending(db, id);
      return AccountExists;
    }
    var userId := InsertVerifiedUser(db, p, now);
    DeletePending(db, id);
    session.PopPendingRegistration();
    session.Login(userId);
    r := Verified(userId);
  }
}
