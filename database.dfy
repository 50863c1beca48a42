/**
 * The persistent collections the guards and the account flows read and write: users,
 * stores and subscriptions, each a map from document id to document. A Mongoose
 * `save` is an update of one map entry.
 */
module Database {
  import opened Common
  import opened StoreModel
  import opened Subscription

  /** An HTTP answer: status code and message. */
  datatype Response = Response(code: int, message: string)

  /**
   * The user document fields the model reads. `password` holds the stored hash;
   * token fields hold sha256 digests; absent optional fields are `None`.
   */
  datatype User = User(
    name: string,
    email: string,
    password: string,
    phone: string,
    role: string,
    isActive: bool,
    store: Option<StoreId>,
    subscription: Option<string>,
    lastLogin: Option<int>,
    resetPasswordToken: Option<string>,
    resetPasswordExpire: Option<int>,
    emailVerificationToken: Option<string>,
    emailVerificationExpire: Option<int>,
    isEmailVerified: bool)

  /** Some user is registered under `email`. */
  predicate EmailTaken(users: map<UserId, User>, email: string)
  {
    exists id | id in users :: users[id].email == email
  }

  /** Some store already uses `subdomain`. */
  predicate SubdomainTaken(stores: map<StoreId, Store>, subdomain: string)
  {
    exists id | id in stores :: stores[id].subdomain == subdomain
  }

  /** The subscription on record for a user, if any (`Subscription.findOne({ user })`). */
  function SubscriptionOf(subscriptions: map<UserId, Subscription>, user: UserId): Option<Subscription>
  {
    if user in subscriptions then Some(subscriptions[user]) else None
  }

  /** The subscription of `user` is a trial whose end has passed at `now`. */
  predicate TrialLapsed(subscriptions: map<UserId, Subscription>, user: UserId, now: int)
  {
    user in subscriptions && subscriptions[user].status == Trial && IsTrialExpired(subscriptions[user], now)
  }

  /** The subscription map after the in-place `status = 'expired'` write for `user`. */
  function WithTrialExpired(subscriptions: map<UserId, Subscription>, user: UserId): (r: map<UserId, Subscription>)
    requires user in subscriptions && subscriptions[user].status == Trial
    ensures r.Keys == subscriptions.Keys
    ensures r[user].status == Expired && r[user].(status := Trial) == subscriptions[user]
    ensures forall u :: u in r && u != user ==> r[u] == subscriptions[u]
  {
    subscriptions[user := ExpireTrial(subscriptions[user])]
  }

  /** No two users share an email. */
  predicate UniqueEmails(users: map<UserId, User>)
  {
    forall a, b | a in users && b in users :: users[a].email == users[b].email ==> a == b
  }

  /** Adding a user under a new id and an unused email keeps emails unique. */
  lemma AddUserKeepsUnique(users: map<UserId, User>, id: UserId, u: User)
    requires UniqueEmails(users) && id !in users && !EmailTaken(users, u.email)
    ensures UniqueEmails(users[id := u])
  {
  }

  /** Rewriting a user without changing its email keeps emails unique. */
  lemma UpdateUserKeepsUnique(users: map<UserId, User>, id: UserId, u: User)
    requires UniqueEmails(users) && id in users && users[id].email == u.email
    ensures UniqueEmails(users[id := u])
  {
  }

  class Db {
    var users: map<UserId, User>
    var stores: map<StoreId, Store>
    var subscriptions: map<UserId, Subscription>

    /** The unique index on the user email: no two users share one. */
    predicate Valid()
      reads this
    {
      UniqueEmails(users)
    }

    constructor()
      ensures users == map[] && stores == map[] && subscriptions == map[]
      ensures Valid()
    {
      users := map[];
      stores := map[];
      subscriptions := map[];
    }
  }
}
