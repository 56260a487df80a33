/**
 * The identity records (accounts/models.py): users with an entitlement tier
 * and disable/verify flags, pending registrations and verification codes.
 * Times are integers (seconds); "now" is always a parameter.
 */
module Accounts {
  import opened Wrappers

  datatype UserType = Basic | Pro

  /** `passwordHash` is whatever `set_password`/`make_password` produced. */
  datatype User = User(
    id: nat,
    email: string,
    passwordHash: string,
    firstName: string,
    lastName: string,
    userType: UserType,
    isDisabled: bool,
    isStaff: bool,
    isSuperuser: bool,
    emailVerifiedAt: Option<int>)

  /** `User.is_verified`: a verification time has been recorded. */
  predicate IsVerified(u: User) {
    u.emailVerifiedAt.Some?
  }

  /** `User.verify_email`: stamps the verification time and changes nothing else. */
  function VerifyEmail(u: User, now: int): (r: User)
    ensures IsVerified(r) && r.emailVerifiedAt == Some(now)
    ensures r.(emailVerifiedAt := u.emailVerifiedAt) == u
  {
    u.(emailVerifiedAt := Some(now))
  }

  /** A user is verified exactly when it is what `verify_email` leaves at some instant. */
  lemma VerifiedIffStamped(u: User)
    ensures IsVerified(u) <==> exists t :: VerifyEmail(u, t) == u
  {
    if IsVerified(u) {
      assert VerifyEmail(u, u.emailVerifiedAt.value) == u;
    }
  }

  datatype PendingRegistration = PendingRegistration(
    id: nat,
    email: string,
    firstName: string,
    lastName: string,
    passwordHash: string,
    code: string,
    createdAt: int,
    expiresAt: int)

  datatype VerificationCode = VerificationCode(
    userId: nat,
    code: string,
    createdAt: int,
    expiresAt: int)

  /** `PendingRegistration.is_valid`: still valid at the instant of expiry. */
  predicate PendingIsValid(p: PendingRegistration, now: int) {
    p.expiresAt >= now
  }

  /** `VerificationCode.is_valid`: the same inclusive expiry rule. */
  predicate CodeIsValid(v: VerificationCode, now: int) {
    v.expiresAt >= now
  }

  /**
   * A pending registration is valid up to and including its expiry instant
   * and never after: once expired, it stays expired.
   */
  lemma PendingExpiry(p: PendingRegistration, t: int, later: int)
    ensures PendingIsValid(p, p.expiresAt) && !PendingIsValid(p, p.expiresAt + 1)
    ensures t <= later && PendingIsValid(p, later) ==> PendingIsValid(p, t)
    ensures t <= later && !PendingIsValid(p, t) ==> !PendingIsValid(p, later)
  {
  }

  /** A verification code follows the same rule. */
  lemma CodeExpiry(v: VerificationCode, t: int, later: int)
    ensures CodeIsValid(v, v.expiresAt) && !CodeIsValid(v, v.expiresAt + 1)
    ensures t <= later && CodeIsValid(v, later) ==> CodeIsValid(v, t)
    ensures t <= later && !CodeIsValid(v, t) ==> !CodeIsValid(v, later)
  {
  }

  /**
   * The keyword arguments a caller may pass to `create_user` /
   * `create_superuser`. None means "not passed"; for `emailVerifiedAt`,
   * `Some(None)` is an explicit `email_verified_at=None`.
   */
  datatype ExtraFields = ExtraFields(
    isStaff: Option<bool>,
    isSuperuser: Option<bool>,
    emailVerifiedAt: Option<Option<int>>,
    userType: Option<UserType>,
    isDisabled: Option<bool>,
    firstName: Option<string>,
    lastName: Option<string>)

  /** `EmailTaken` is the IntegrityError `user.save()` raises on the unique `email` column. */
  datatype CreateError = EmailMissing | EmailTaken | StaffRequired | SuperuserRequired

  /** Some stored user has this e-mail. */
  predicate EmailInUse(users: map<nat, User>, email: string) {
    exists id :: id in users && users[id].email == email
  }

  /**
   * `_create_user` on the stored `users`: refuses an empty email, builds the
   * row with the model defaults for every field the caller left out (basic
   * tier, enabled, not staff, unverified), and saving it is refused when the
   * e-mail already has a user. The e-mail is stored as given.
   */
  function CreateUserRow(users: map<nat, User>, id: nat, email: string, passwordHash: string, extra: ExtraFields)
    : (r: Result<User, CreateError>)
    ensures email == "" <==> r == Err(EmailMissing)
    ensures r == Err(EmailTaken) <==> email != "" && EmailInUse(users, email)
    ensures r.Ok? <==> email != "" && !EmailInUse(users, email)
    ensures r.Ok? ==> r.value.id == id && r.value.email == email && r.value.passwordHash == passwordHash
    ensures r.Ok? ==> r.value.userType == extra.userType.GetOr(Basic)
    ensures r.Ok? ==> r.value.isStaff == extra.isStaff.GetOr(false)
    ensures r.Ok? ==> r.value.isSuperuser == extra.isSuperuser.GetOr(false)
    ensures r.Ok? ==> r.value.emailVerifiedAt == extra.emailVerifiedAt.GetOr(None)
  {
    if email == "" then Err(EmailMissing)
    else if EmailInUse(users, email) then Err(EmailTaken)
    else Ok(User(
      id, email, passwordHash,
      extra.firstName.GetOr(""), extra.lastName.GetOr(""),
      extra.userType.GetOr(Basic), extra.isDisabled.GetOr(false),
      extra.isStaff.GetOr(false), extra.isSuperuser.GetOr(false),
      extra.emailVerifiedAt.GetOr(None)))
  }

  /** `create_user`: not staff and not superuser unless the caller says otherwise. */
  function CreateUser(users: map<nat, User>, id: nat, email: string, passwordHash: string, extra: ExtraFields)
    : (r: Result<User, CreateError>)
    ensures r.Ok? <==> email != "" && !EmailInUse(users, email)
    ensures r == Err(EmailTaken) <==> email != "" && EmailInUse(users, email)
    ensures r.Ok? ==> r.value.isStaff == extra.isStaff.GetOr(false)
    ensures r.Ok? ==> r.value.isSuperuser == extra.isSuperuser.GetOr(false)
    ensures r.Ok? ==> r.value.userType == extra.userType.GetOr(Basic)
  {
    CreateUserRow(users, id, email, passwordHash,
      extra.(isStaff := Some(extra.isStaff.GetOr(false)),
             isSuperuser := Some(extra.isSuperuser.GetOr(false))))
  }

  /**
   * `create_superuser`: staff and superuser default to true and must end up
   * true, and the account counts as verified from `now` unless the caller
   * passed a verification time (or an explicit None).
   */
  function CreateSuperuser(users: map<nat, User>, id: nat, email: string, passwordHash: string, extra: ExtraFields, now: int)
    : (r: Result<User, CreateError>)
    ensures extra.isStaff == Some(false) ==> r == Err(StaffRequired)
    ensures extra.isStaff != Some(false) && extra.isSuperuser == Some(false) ==> r == Err(SuperuserRequired)
    ensures r.Ok? <==>
      extra.isStaff != Some(false) && extra.isSuperuser != Some(false) && email != "" && !EmailInUse(users, email)
    ensures r == Err(EmailTaken) <==>
      extra.isStaff != Some(false) && extra.isSuperuser != Some(false) && email != "" && EmailInUse(users, email)
    ensures r.Ok? ==> r.value.isStaff && r.value.isSuperuser
    ensures r.Ok? ==> r.value.emailVerifiedAt == extra.emailVerifiedAt.GetOr(Some(now))
    ensures r.Ok? && extra.emailVerifiedAt.None? ==> IsVerified(r.value)
  {
    // the three `setdefault` calls, then the two `is not True` checks
    var staff := extra.isStaff.GetOr(true);
    var superuser := extra.isSuperuser.GetOr(true);
    if !staff then Err(StaffRequired)
    else if !superuser then Err(SuperuserRequired)
    else CreateUserRow(users, id, email, passwordHash,
      extra.(isStaff := Some(staff), isSuperuser := Some(superuser),
             emailVerifiedAt := Some(extra.emailVerifiedAt.GetOr(Some(now)))))
  }

  /** Storing a created user under a fresh id keeps the e-mails unique. */
  lemma CreatedUserKeepsEmailsUnique(users: map<nat, User>, id: nat, email: string, passwordHash: string,
                                     extra: ExtraFields)
    requires forall a, b :: a in users && b in users && users[a].email == users[b].email ==> a == b
    requires id !in users && CreateUserRow(users, id, email, passwordHash, extra).Ok?
    ensures var after := users[id := CreateUserRow(users, id, email, passwordHash, extra).value];
      forall a, b :: a in after && b in after && after[a].email == after[b].email ==> a == b
  {
  }
}
