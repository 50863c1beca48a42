/**
 * The account flows of the authentication controller: registration, login, and the
 * password-reset and email-verification tokens. Hashing, password comparison, random
 * tokens, email delivery and the clock are parameters.
 */
module AuthController {
  import opened Common
  import opened StoreModel
  import opened Subscription
  import opened Database

  const EmailRegistered: Response := Response(400, "Email already registered")
  const SubdomainInUse: Response := Response(400, "Subdomain already taken")
  const RegistrationFailed: Response := Response(500, "Error creating account")
  const Registered: Response := Response(201, "Registered")
  const MissingCredentials: Response := Response(400, "Please provide email and password")
  const InvalidCredentials: Response := Response(401, "Invalid credentials")
  const AccountDeactivated: Response := Response(403, "Your account has been deactivated")
  const TrialEnded: Response := Response(403, "Your free trial has expired. Please subscribe to continue.")
  const LoggedIn: Response := Response(200, "Logged in")
  const NoSuchEmail: Response := Response(404, "No user found with that email")
  const ResetEmailSent: Response := Response(200, "Email sent")
  const ResetEmailFailed: Response := Response(500, "Email could not be sent")
  const InvalidResetToken: Response := Response(400, "Invalid or expired token")
  const PasswordReset: Response := Response(200, "Password reset")
  const InvalidVerificationToken: Response := Response(400, "Invalid or expired verification token")
  const EmailVerified: Response := Response(200, "Email verified successfully")
  const WrongCurrentPassword: Response := Response(401, "Current password is incorrect")
  const PasswordUpdated: Response := Response(200, "Password updated")

  /** How long an email verification token stays valid: 24 hours. */
  const VerificationWindowMs: int := 24 * 60 * 60 * 1000

  // ---------------------------------------------------------------- register

  /** `storeName || \`${name}'s Store\``. */
  function StoreNameFor(name: string, storeName: string): string
  {
    if storeName != "" then storeName else name + "'s Store"
  }

  /** The user `User.create` stores: a `store_owner`, active, nothing linked yet. */
  function NewUser(name: string, email: string, passwordHash: string, phone: string): (u: User)
    ensures u.role == "store_owner" && u.isActive && u.email == email && !u.isEmailVerified
    ensures u.store.None? && u.subscription.None? && u.lastLogin.None?
  {
    User(name, email, passwordHash, phone, "store_owner", true, None, None, None, None, None, None, None, false)
  }

  /** The new user after registration links its store and subscription and gets a verification token. */
  function LinkedUser(u: User, storeId: StoreId, subscriptionId: string, digest: string, now: int): User
  {
    u.(store := Some(storeId), subscription := Some(subscriptionId),
       emailVerificationToken := Some(digest), emailVerificationExpire := Some(now + VerificationWindowMs))
  }

  /** The state `register` leaves once the email and the subdomain are both free. */
  ghost predicate AccountCreated(db: Db, users: map<UserId, User>, stores: map<StoreId, Store>,
                                 subscriptions: map<UserId, Subscription>, resp: Response,
                                 name: string, email: string, passwordHash: string, phone: string,
                                 storeName: string, subdomain: string, userId: UserId, storeId: StoreId,
                                 subscriptionId: string, digest: string, storeOk: bool, now: int)
    reads db
  {
    var user := NewUser(name, email, passwordHash, phone);
    (!storeOk ==>
       resp == RegistrationFailed && db.users == users[userId := user]
       && db.stores == stores && db.subscriptions == subscriptions)
    && (storeOk ==>
       resp == Registered
       && db.users == users[userId := LinkedUser(user, storeId, subscriptionId, digest, now)]
       && db.stores == stores[storeId := NewStore(userId, StoreNameFor(name, storeName), subdomain, phone, email)]
       && db.subscriptions == subscriptions[userId := NewTrial(userId, storeId, Free, Details(Free).features, now)])
  }

  /**
   * `register`: refuses a taken email, then a taken subdomain, without writing; then
   * creates the account (see `CreateAccount`). A failed welcome email changes nothing.
   */
  method Register(db: Db, name: string, email: string, passwordHash: string, phone: string,
                  storeName: string, subdomain: string, userId: UserId, storeId: StoreId,
                  subscriptionId: string, digest: string, emailPatternOk: bool, now: int)
    returns (resp: Response)
    requires db.Valid()
    requires userId !in db.users && userId !in db.subscriptions && storeId !in db.stores
    modifies db
    ensures db.Valid()
    ensures EmailTaken(old(db.users), email) ==>
      resp == EmailRegistered && db.users == old(db.users) && db.stores == old(db.stores)
      && db.subscriptions == old(db.subscriptions)
    ensures !EmailTaken(old(db.users), email) && SubdomainTaken(old(db.stores), subdomain) ==>
      resp == SubdomainInUse && db.users == old(db.users) && db.stores == old(db.stores)
      && db.subscriptions == old(db.subscriptions)
    ensures !EmailTaken(old(db.users), email) && !SubdomainTaken(old(db.stores), subdomain) ==>
      AccountCreated(db, old(db.users), old(db.stores), old(db.subscriptions), resp, name, email, passwordHash,
                     phone, storeName, subdomain, userId, storeId, subscriptionId, digest,
                     PassesValidation(StoreNameFor(name, storeName), subdomain, phone) && emailPatternOk, now)
  {
    if EmailTaken(db.users, email) {
      return EmailRegistered;
    }
    if SubdomainTaken(db.stores, subdomain) {
      return SubdomainInUse;
    }
    var storeOk := PassesValidation(StoreNameFor(name, storeName), subdomain, phone) && emailPatternOk;
    resp := CreateAccount(db, name, email, passwordHash, phone, storeName, subdomain, userId, storeId,
                          subscriptionId, digest, storeOk, now);
  }

  /**
   * The writing part of `register`: creates the user, then the store (whose schema
   * validation may fail, leaving the user in place and answering 500), links the
   * store, creates the free trial, links it and sets the verification token.
   * `storeOk` is the outcome of that validation, which `Register` computes.
   */
  method CreateAccount(db: Db, name: string, email: string, passwordHash: string, phone: string,
                       storeName: string, subdomain: string, userId: UserId, storeId: StoreId,
                       subscriptionId: string, digest: string, storeOk: bool, now: int)
    returns (resp: Response)
    requires db.Valid() && !EmailTaken(db.users, email)
    requires userId !in db.users && userId !in db.subscriptions && storeId !in db.stores
    modifies db
    ensures db.Valid()
    ensures AccountCreated(db, old(db.users), old(db.stores), old(db.subscriptions), resp, name, email, passwordHash,
                           phone, storeName, subdomain, userId, storeId, subscriptionId, digest, storeOk, now)
  {
    var user := NewUser(name, email, passwordHash, phone);
    AddUserKeepsUnique(db.users, userId, user);
    db.users := db.users[userId := user];
    var shopName := StoreNameFor(name, storeName);
    if !storeOk {
      return RegistrationFailed;
    }
    db.stores := db.stores[storeId := NewStore(userId, shopName, subdomain, phone, email)];
    var free := GetPlanDetails("free");
    assert free == Details(Free) by { PlanKeyRoundTrip(Free); }
    db.subscriptions := db.subscriptions[userId := NewTrial(userId, storeId, Free, free.features, now)];
    // The store link, the subscription link and the verification token are three saves
    // of the same document; only the last state is observable.
    var linked := LinkedUser(user, storeId, subscriptionId, digest, now);
    UpdateUserKeepsUnique(db.users, userId, linked);
    db.users := db.users[userId := linked];
    assert db.users == old(db.users)[userId := linked];
    resp := Registered;
  }

  // ---------------------------------------------------------------- login

  /**
   * `login`: 400 without email or password; the same 401 for an unknown email and a
   * wrong password; 403 for a deactivated account, decided only after the password
   * matched; an expired trial is set to `expired` and refused; otherwise `lastLogin`
   * becomes `now`. `matches(password, hash)` is the password comparison.
   */
  method Login(db: Db, email: string, password: string, matches: (string, string) -> bool, now: int)
    returns (resp: Response)
    requires db.Valid()
    modifies db
    ensures db.Valid() && db.stores == old(db.stores)
    ensures email == "" || password == "" ==>
      resp == MissingCredentials && db.users == old(db.users) && db.subscriptions == old(db.subscriptions)
    ensures email != "" && password != "" && !EmailTaken(old(db.users), email) ==>
      resp == InvalidCredentials && db.users == old(db.users) && db.subscriptions == old(db.subscriptions)
    ensures forall id :: email != "" && password != "" && id in old(db.users) && old(db.users)[id].email == email ==>
      var u := old(db.users)[id];
      (!matches(password, u.password) ==>
         resp == InvalidCredentials && db.users == old(db.users) && db.subscriptions == old(db.subscriptions))
      && (matches(password, u.password) && !u.isActive ==>
         resp == AccountDeactivated && db.users == old(db.users) && db.subscriptions == old(db.subscriptions))
      && (matches(password, u.password) && u.isActive && TrialLapsed(old(db.subscriptions), id, now) ==>
         resp == TrialEnded && db.users == old(db.users)
         && db.subscriptions == WithTrialExpired(old(db.subscriptions), id))
      && (matches(password, u.password) && u.isActive && !TrialLapsed(old(db.subscriptions), id, now) ==>
         resp == LoggedIn && db.users == old(db.users)[id := u.(lastLogin := Some(now))]
         && db.subscriptions == old(db.subscriptions))
  {
    if email == "" || password == "" {
      return MissingCredentials;
    }
    if !EmailTaken(db.users, email) {
      return InvalidCredentials;
    }
    var id :| id in db.users && db.users[id].email == email;
    var user := db.users[id];
    if !matches(password, user.password) {
      return InvalidCredentials;
    }
    if !user.isActive {
      return AccountDeactivated;
    }
    if id in db.subscriptions && db.subscriptions[id].status == Trial && IsTrialExpired(db.subscriptions[id], now) {
      db.subscriptions := db.subscriptions[id := ExpireTrial(db.subscriptions[id])];
      return TrialEnded;
    }
    user := user.(lastLogin := Some(now));
    db.users := db.users[id := user];
    resp := LoggedIn;
  }

  /**
   * `updatePassword` for the signed-in user `id`: 401 when the current password does
   * not match the stored hash; otherwise the stored hash is replaced.
   */
  method UpdatePassword(db: Db, id: UserId, currentPassword: string, newPasswordHash: string,
                        matches: (string, string) -> bool)
    returns (resp: Response)
    requires db.Valid() && id in db.users
    modifies db
    ensures db.Valid() && db.stores == old(db.stores) && db.subscriptions == old(db.subscriptions)
    ensures !matches(currentPassword, old(db.users)[id].password) ==>
      resp == WrongCurrentPassword && db.users == old(db.users)
    ensures matches(currentPassword, old(db.users)[id].password) ==>
      resp == PasswordUpdated && db.users == old(db.users)[id := old(db.users)[id].(password := newPasswordHash)]
  {
    var user := db.users[id];
    if !matches(currentPassword, user.password) {
      return WrongCurrentPassword;
    }
    UpdateUserKeepsUnique(db.users, id, user.(password := newPasswordHash));
    db.users := db.users[id := user.(password := newPasswordHash)];
    resp := PasswordUpdated;
  }

  // ---------------------------------------------------------------- tokens

  /** A stored token digest with its expiry accepts `digest` at `now`: equal and strictly unexpired. */
  predicate TokenLive(token: Option<string>, expire: Option<int>, digest: string, now: int)
  {
    token == Some(digest) && expire.Some? && expire.value > now
  }

  predicate ResetTokenMatches(users: map<UserId, User>, id: UserId, digest: string, now: int)
  {
    id in users && TokenLive(users[id].resetPasswordToken, users[id].resetPasswordExpire, digest, now)
  }

  predicate VerificationTokenMatches(users: map<UserId, User>, id: UserId, digest: string, now: int)
  {
    id in users && TokenLive(users[id].emailVerificationToken, users[id].emailVerificationExpire, digest, now)
  }

  /**
   * `forgotPassword`: 404 for an unknown email; otherwise the reset token digest and
   * its expiry are stored, and removed again when the email cannot be sent. The digest
   * and the expiry come from `User.getResetPasswordToken`, which is not part of this
   * model, so `expire` is whatever that method sets; the ten minutes the email text
   * announces are not checked here.
   */
  method ForgotPassword(db: Db, email: string, digest: string, expire: int, emailSent: bool)
    returns (resp: Response)
    requires db.Valid()
    modifies db
    ensures db.Valid() && db.stores == old(db.stores) && db.subscriptions == old(db.subscriptions)
    ensures !EmailTaken(old(db.users), email) ==> resp == NoSuchEmail && db.users == old(db.users)
    ensures forall id :: id in old(db.users) && old(db.users)[id].email == email ==>
      var u := old(db.users)[id];
      (emailSent ==>
         resp == ResetEmailSent
         && db.users == old(db.users)[id := u.(resetPasswordToken := Some(digest), resetPasswordExpire := Some(expire))])
      && (!emailSent ==>
         resp == ResetEmailFailed
         && db.users == old(db.users)[id := u.(resetPasswordToken := None, resetPasswordExpire := None)])
  {
    if !EmailTaken(db.users, email) {
      return NoSuchEmail;
    }
    var id :| id in db.users && db.users[id].email == email;
    var user := db.users[id].(resetPasswordToken := Some(digest), resetPasswordExpire := Some(expire));
    UpdateUserKeepsUnique(db.users, id, user);
    db.users := db.users[id := user];
    if emailSent {
      return ResetEmailSent;
    }
    user := user.(resetPasswordToken := None, resetPasswordExpire := None);
    UpdateUserKeepsUnique(db.users, id, user);
    db.users := db.users[id := user];
    assert db.users == old(db.users)[id := user];
    resp := ResetEmailFailed;
  }

  /**
   * `resetPassword`: with a live reset token the password is replaced and both token
   * fields are cleared; otherwise 400 and nothing changes.
   */
  method ResetPassword(db: Db, digest: string, newPasswordHash: string, now: int)
    returns (resp: Response)
    requires db.Valid()
    modifies db
    ensures db.Valid() && db.stores == old(db.stores) && db.subscriptions == old(db.subscriptions)
    ensures (forall id :: !ResetTokenMatches(old(db.users), id, digest, now)) ==>
      resp == InvalidResetToken && db.users == old(db.users)
    ensures (exists id :: ResetTokenMatches(old(db.users), id, digest, now)) ==> resp == PasswordReset
    ensures resp != InvalidResetToken ==>
      resp == PasswordReset
      && exists id :: ResetTokenMatches(old(db.users), id, digest, now)
           && db.users == old(db.users)[id := old(db.users)[id].(password := newPasswordHash,
                                              resetPasswordToken := None, resetPasswordExpire := None)]
  {
    if !exists id | id in db.users :: ResetTokenMatches(db.users, id, digest, now) {
      return InvalidResetToken;
    }
    var id :| id in db.users && ResetTokenMatches(db.users, id, digest, now);
    var user := db.users[id].(password := newPasswordHash, resetPasswordToken := None, resetPasswordExpire := None);
    db.users := db.users[id := user];
    resp := PasswordReset;
  }

  /**
   * `verifyEmail`: with a live verification token the email is marked verified and both
   * token fields are cleared; otherwise 400 and nothing changes.
   */
  method VerifyEmail(db: Db, digest: string, now: int)
    returns (resp: Response)
    requires db.Valid()
    modifies db
    ensures db.Valid() && db.stores == old(db.stores) && db.subscriptions == old(db.subscriptions)
    ensures (forall id :: !VerificationTokenMatches(old(db.users), id, digest, now)) ==>
      resp == InvalidVerificationToken && db.users == old(db.users)
    ensures (exists id :: VerificationTokenMatches(old(db.users), id, digest, now)) ==> resp == EmailVerified
    ensures resp != InvalidVerificationToken ==>
      resp == EmailVerified
      && exists id :: VerificationTokenMatches(old(db.users), id, digest, now)
           && db.users == old(db.users)[id := old(db.users)[id].(isEmailVerified := true,
                                              emailVerificationToken := None, emailVerificationExpire := None)]
  {
    if !exists id | id in db.users :: VerificationTokenMatches(db.users, id, digest, now) {
      return InvalidVerificationToken;
    }
    var id :| id in db.users && VerificationTokenMatches(db.users, id, digest, now);
    var user := db.users[id].(isEmailVerified := true, emailVerificationToken := None, emailVerificationExpire := None);
    db.users := db.users[id := user];
    resp := EmailVerified;
  }

  // ---------------------------------------------------------------- properties

  /** A token is refused at the very millisecond it expires, and accepted one millisecond earlier. */
  lemma TokenExpiryIsStrict(digest: string, expire: int)
    ensures !TokenLive(Some(digest), Some(expire), digest, expire)
    ensures TokenLive(Some(digest), Some(expire), digest, expire - 1)
    ensures forall now, other :: other != digest ==> !TokenLive(Some(other), Some(expire), digest, now)
  {
  }

  /** A cleared token never matches again, so a reset or verification link works once. */
  lemma ClearedTokenIsDead(u: User, digest: string, now: int)
    ensures !TokenLive(u.(resetPasswordToken := None, resetPasswordExpire := None).resetPasswordToken,
                       u.(resetPasswordToken := None, resetPasswordExpire := None).resetPasswordExpire, digest, now)
    ensures !TokenLive(u.(emailVerificationToken := None).emailVerificationToken,
                       u.(emailVerificationToken := None).emailVerificationExpire, digest, now)
  {
  }

  /**
   * A freshly registered owner can pass the trial check until the trial window closes:
   * the account is active, and its trial lapses exactly after 14 days.
   */
  lemma RegisteredAccountLifecycle(name: string, email: string, passwordHash: string, phone: string,
                                   userId: UserId, storeId: StoreId, subscriptionId: string, digest: string,
                                   subscriptions: map<UserId, Subscription>, now: int, t: int)
    ensures LinkedUser(NewUser(name, email, passwordHash, phone), storeId, subscriptionId, digest, now).isActive
    ensures LinkedUser(NewUser(name, email, passwordHash, phone), storeId, subscriptionId, digest, now).role
      == "store_owner"
    ensures var subs := subscriptions[userId := NewTrial(userId, storeId, Free, Details(Free).features, now)];
      TrialLapsed(subs, userId, t) <==> t > now + 14 * 24 * 60 * 60 * 1000
  {
    NewTrialLifecycle(userId, storeId, Free, Details(Free).features, now, t);
  }

  /** The store created for an owner without a store name is named after the owner. */
  lemma DefaultStoreName(name: string)
    ensures StoreNameFor(name, "") == name + "'s Store"
    ensures forall s :: s != "" ==> StoreNameFor(name, s) == s
  {
  }
}
