/**
 * The request guards of the authentication middleware: the `protect` decision chain,
 * role membership, store ownership with the admin bypass, and feature gating.
 * JWT verification is a function from token to user id (`None` when it throws).
 */
module AuthGuard {
  import opened Common
  import opened StoreModel
  import opened Subscription
  import opened Database

  const NotAuthorized: Response := Response(401, "Not authorized to access this route")
  const UserNotFound: Response := Response(401, "User not found")
  const Deactivated: Response := Response(403, "Your account has been deactivated")
  const TrialHasExpired: Response := Response(403, "Your free trial has expired. Please subscribe to continue.")
  const SubscriptionEnded: Response := Response(403, "Your subscription has expired. Please renew to continue.")
  const NoSubscription: Response := Response(403, "No active subscription found")
  const StoreIdRequired: Response := Response(400, "Store ID is required")
  const StoreNotFound: Response := Response(404, "Store not found")
  const NotStoreOwner: Response := Response(403, "You are not authorized to access this store")

  // ---------------------------------------------------------------- token

  /** The index of the first space, if any. */
  function FirstSpace(s: string): (r: Option<nat>)
    ensures r.Some? ==> r.value < |s| && s[r.value] == ' ' && forall j :: 0 <= j < r.value ==> s[j] != ' '
    ensures r.None? ==> forall j :: 0 <= j < |s| ==> s[j] != ' '
  {
    if s == [] then None
    else if s[0] == ' ' then Some(0)
    else
      match FirstSpace(s[1..])
      case None => None
      case Some(i) => Some(i + 1)
  }

  /** `s.split(' ')[0]`. */
  function FirstField(s: string): string
  {
    match FirstSpace(s)
    case None => s
    case Some(i) => s[..i]
  }

  /** `s.split(' ')[1]`: `None` (undefined) when `s` has no space. */
  function SecondField(s: string): Option<string>
  {
    match FirstSpace(s)
    case None => None
    case Some(i) => Some(FirstField(s[i + 1..]))
  }

  /**
   * The token `protect` uses: from an `Authorization` header starting with `Bearer`
   * (its second space-separated field), otherwise from a truthy `token` cookie.
   */
  function ExtractToken(authorization: Option<string>, cookie: Option<string>): Option<string>
  {
    if Truthy(authorization) && StartsWith(authorization.value, "Bearer") then SecondField(authorization.value)
    else if Truthy(cookie) then cookie
    else None
  }

  /** The user id a request's credentials verify to, if any. */
  function Credential(authorization: Option<string>, cookie: Option<string>,
                      verify: string -> Option<UserId>): Option<UserId>
  {
    var token := ExtractToken(authorization, cookie);
    if Truthy(token) then verify(token.value) else None
  }

  // ---------------------------------------------------------------- protect

  /** What `protect` decides: continue with the user and the attached subscription, or answer. */
  datatype Admission = Admit(user: UserId, subscription: Option<Subscription>) | Reject(response: Response)

  /** The decision chain of `protect`, over the collections as they are before the call. */
  function ProtectOutcome(users: map<UserId, User>, subscriptions: map<UserId, Subscription>,
                          authorization: Option<string>, cookie: Option<string>,
                          verify: string -> Option<UserId>, now: int): Admission
  {
    var token := ExtractToken(authorization, cookie);
    if !Truthy(token) then Reject(NotAuthorized)
    else
      var id := verify(token.value);
      if id.None? then Reject(NotAuthorized)
      else if id.value !in users then Reject(UserNotFound)
      else if !users[id.value].isActive then Reject(Deactivated)
      else
        match SubscriptionOf(subscriptions, id.value)
        case None => Admit(id.value, None)
        case Some(s) =>
          if s.status == Trial && IsTrialExpired(s, now) then Reject(TrialHasExpired)
          else if s.status == Expired || s.status == Cancelled then Reject(SubscriptionEnded)
          else Admit(id.value, Some(s))
  }

  /** `protect` writes a subscription exactly when it finds an active user's lapsed trial. */
  predicate ExpiresTrial(users: map<UserId, User>, subscriptions: map<UserId, Subscription>,
                         authorization: Option<string>, cookie: Option<string>,
                         verify: string -> Option<UserId>, now: int)
  {
    var id := Credential(authorization, cookie, verify);
    id.Some? && id.value in users && users[id.value].isActive && TrialLapsed(subscriptions, id.value, now)
  }

  /**
   * `protect`: decides as ProtectOutcome and, on a lapsed trial, sets that subscription's
   * status to `expired` in place; nothing else is written.
   */
  method Protect(db: Db, authorization: Option<string>, cookie: Option<string>,
                 verify: string -> Option<UserId>, now: int)
    returns (a: Admission)
    modifies db
    ensures a == ProtectOutcome(old(db.users), old(db.subscriptions), authorization, cookie, verify, now)
    ensures ExpiresTrial(old(db.users), old(db.subscriptions), authorization, cookie, verify, now) ==>
      db.subscriptions == WithTrialExpired(old(db.subscriptions), Credential(authorization, cookie, verify).value)
    ensures !ExpiresTrial(old(db.users), old(db.subscriptions), authorization, cookie, verify, now) ==>
      db.subscriptions == old(db.subscriptions)
    ensures db.users == old(db.users) && db.stores == old(db.stores)
  {
    var token := ExtractToken(authorization, cookie);
    if !Truthy(token) {
      return Reject(NotAuthorized);
    }
    var id := verify(token.value);
    if id.None? {
      return Reject(NotAuthorized);
    }
    if id.value !in db.users {
      return Reject(UserNotFound);
    }
    if !db.users[id.value].isActive {
      return Reject(Deactivated);
    }
    if id.value in db.subscriptions {
      var s := db.subscriptions[id.value];
      if s.status == Trial && IsTrialExpired(s, now) {
        db.subscriptions := db.subscriptions[id.value := ExpireTrial(s)];
        return Reject(TrialHasExpired);
      }
      if s.status == Expired || s.status == Cancelled {
        return Reject(SubscriptionEnded);
      }
      return Admit(id.value, Some(s));
    }
    a := Admit(id.value, None);
  }

  // ---------------------------------------------------------------- other guards

  /** `authorize(...roles)`: `None` lets the request through. */
  function Authorize(roles: seq<string>, role: string): (r: Option<Response>)
    ensures r.None? <==> role in roles
    ensures r.Some? ==> r.value.code == 403
  {
    if role in roles then None
    else Some(Response(403, "User role " + role + " is not authorized to access this route"))
  }

  /** `req.params.storeId || req.body.storeId || req.query.storeId`, if truthy. */
  function SelectStoreId(params: Option<string>, body: Option<string>, query: Option<string>): Option<StoreId>
  {
    if Truthy(params) then params
    else if Truthy(body) then body
    else if Truthy(query) then query
    else None
  }

  datatype StoreCheck = StorePass(store: StoreId) | StoreFail(response: Response)

  /** The decision of `checkStoreOwnership` for a user with `userId` and `role`. */
  function CheckStoreOwnership(stores: map<StoreId, Store>, params: Option<string>, body: Option<string>,
                               query: Option<string>, userId: UserId, role: string): (r: StoreCheck)
    ensures r.StorePass? ==> r.store in stores && (role == "admin" || stores[r.store].owner == userId)
    ensures r.StorePass? ==> SelectStoreId(params, body, query) == Some(r.store)
    ensures SelectStoreId(params, body, query).None? <==> r == StoreFail(StoreIdRequired)
  {
    match SelectStoreId(params, body, query)
    case None => StoreFail(StoreIdRequired)
    case Some(id) =>
      if id !in stores then StoreFail(StoreNotFound)
      else if role != "admin" && stores[id].owner != userId then StoreFail(NotStoreOwner)
      else StorePass(id)
  }

  /** `checkSubscriptionFeature(feature)` over the subscription `protect` attached. */
  function FeatureGate(subscription: Option<Subscription>, feature: string): (r: Option<Response>)
    ensures r.None? <==> subscription.Some? && CanAccessFeature(subscription.value.features, feature)
    ensures r.Some? ==> r.value.code == 403
  {
    if subscription.None? then Some(NoSubscription)
    else if !CanAccessFeature(subscription.value.features, feature) then
      Some(Response(403, "This feature requires a higher subscription plan. Feature: " + feature))
    else None
  }

  // ---------------------------------------------------------------- properties

  lemma {:induction false} NoSpaceFirstField(s: string)
    requires forall j :: 0 <= j < |s| ==> s[j] != ' '
    ensures FirstSpace(s).None? && FirstField(s) == s
  {
  }

  /** A well-formed `Bearer <token>` header yields its token, whatever the cookie says. */
  lemma BearerHeaderRoundTrip(token: string, cookie: Option<string>)
    requires forall j :: 0 <= j < |token| ==> token[j] != ' '
    ensures ExtractToken(Some("Bearer " + token), cookie) == Some(token)
  {
    var h := "Bearer " + token;
    assert StartsWith(h, "Bearer");
    assert h[6] == ' ';
    assert FirstSpace(h) == Some(6);
    assert h[7..] == token;
    NoSpaceFirstField(token);
  }

  /**
   * The header takes precedence even when it carries no token: a `Bearer…` header
   * without a space leaves the request without a token although a cookie is present.
   */
  lemma MalformedBearerShadowsCookie(header: string, cookie: Option<string>)
    requires StartsWith(header, "Bearer")
    requires forall j :: 0 <= j < |header| ==> header[j] != ' '
    ensures ExtractToken(Some(header), cookie) == None
  {
    NoSpaceFirstField(header);
  }

  /** Without a `Bearer` header the cookie is used; with neither the request gets 401. */
  lemma CookieFallback(authorization: Option<string>, cookie: Option<string>, users: map<UserId, User>,
                       subscriptions: map<UserId, Subscription>, verify: string -> Option<UserId>, now: int)
    requires !(Truthy(authorization) && StartsWith(authorization.value, "Bearer"))
    ensures Truthy(cookie) ==> ExtractToken(authorization, cookie) == cookie
    ensures !Truthy(cookie) ==>
      ProtectOutcome(users, subscriptions, authorization, cookie, verify, now) == Reject(NotAuthorized)
  {
  }

  /**
   * A missing user (401) and an inactive user (403) are decided from the user alone:
   * the outcome is the same whatever subscriptions exist.
   */
  lemma UserChecksPrecedeSubscription(users: map<UserId, User>, s1: map<UserId, Subscription>,
                                      s2: map<UserId, Subscription>, authorization: Option<string>,
                                      cookie: Option<string>, verify: string -> Option<UserId>, now: int)
    requires var id := Credential(authorization, cookie, verify);
      id.Some? && (id.value !in users || !users[id.value].isActive)
    ensures ProtectOutcome(users, s1, authorization, cookie, verify, now)
         == ProtectOutcome(users, s2, authorization, cookie, verify, now)
    ensures var id := Credential(authorization, cookie, verify).value;
      ProtectOutcome(users, s1, authorization, cookie, verify, now)
         == if id !in users then Reject(UserNotFound) else Reject(Deactivated)
  {
  }

  /**
   * Only `active`, `inactive` and unexpired `trial` subscriptions pass, and the
   * subscription attached is the one on record.
   */
  lemma AdmittedSubscriptions(users: map<UserId, User>, subscriptions: map<UserId, Subscription>,
                              authorization: Option<string>, cookie: Option<string>,
                              verify: string -> Option<UserId>, now: int)
    ensures var a := ProtectOutcome(users, subscriptions, authorization, cookie, verify, now);
      a.Admit? ==>
        a.user in users && users[a.user].isActive && Credential(authorization, cookie, verify) == Some(a.user)
        && a.subscription == SubscriptionOf(subscriptions, a.user)
        && (a.subscription.Some? ==>
              a.subscription.value.status in {Active, Inactive, Trial}
              && !IsTrialExpired(a.subscription.value, now))
    ensures var id := Credential(authorization, cookie, verify);
      id.Some? && id.value in users && users[id.value].isActive && id.value in subscriptions
      && subscriptions[id.value].status in {Active, Inactive} ==>
        ProtectOutcome(users, subscriptions, authorization, cookie, verify, now)
          == Admit(id.value, Some(subscriptions[id.value]))
  {
    var a := ProtectOutcome(users, subscriptions, authorization, cookie, verify, now);
    if a.Admit? && a.subscription.Some? && a.subscription.value.status != Trial {
      OnlyTrialsExpire(a.subscription.value, now);
    }
    var id := Credential(authorization, cookie, verify);
    if id.Some? && id.value in users && id.value in subscriptions && subscriptions[id.value].status in {Active, Inactive} {
      OnlyTrialsExpire(subscriptions[id.value], now);
    }
  }

  /**
   * Once `protect` has expired a trial, the same credentials are refused as an ended
   * subscription from then on, at any time.
   */
  lemma ExpiryIsSticky(users: map<UserId, User>, subscriptions: map<UserId, Subscription>,
                       authorization: Option<string>, cookie: Option<string>,
                       verify: string -> Option<UserId>, now: int, later: int)
    requires ExpiresTrial(users, subscriptions, authorization, cookie, verify, now)
    ensures ProtectOutcome(users, subscriptions, authorization, cookie, verify, now) == Reject(TrialHasExpired)
    ensures var after := WithTrialExpired(subscriptions, Credential(authorization, cookie, verify).value);
      ProtectOutcome(users, after, authorization, cookie, verify, later) == Reject(SubscriptionEnded)
  {
    var id := Credential(authorization, cookie, verify).value;
    var after := WithTrialExpired(subscriptions, id);
    OnlyTrialsExpire(after[id], later);
  }

  /**
   * A user without a subscription record passes `protect` but is always refused by a
   * feature gate.
   */
  lemma NoSubscriptionStopsAtFeatureGate(users: map<UserId, User>, subscriptions: map<UserId, Subscription>,
                                         authorization: Option<string>, cookie: Option<string>,
                                         verify: string -> Option<UserId>, now: int, feature: string)
    requires var id := Credential(authorization, cookie, verify);
      id.Some? && id.value in users && users[id.value].isActive && id.value !in subscriptions
    ensures var a := ProtectOutcome(users, subscriptions, authorization, cookie, verify, now);
      a.Admit? && a.subscription.None? && FeatureGate(a.subscription, feature) == Some(NoSubscription)
  {
  }

  /** The store id comes from the route parameters first, then the body, then the query string. */
  lemma StoreIdPrecedence(params: Option<string>, body: Option<string>, query: Option<string>)
    ensures Truthy(params) ==> SelectStoreId(params, body, query) == params
    ensures !Truthy(params) && Truthy(body) ==> SelectStoreId(params, body, query) == body
    ensures !Truthy(params) && !Truthy(body) ==>
      SelectStoreId(params, body, query) == (if Truthy(query) then query else None)
    ensures SelectStoreId(params, body, query).Some? ==> Truthy(SelectStoreId(params, body, query))
  {
  }

  /**
   * For an existing store: an admin always passes, the owner passes, and anyone else
   * gets 403; an unknown store gets 404 whoever asks.
   */
  lemma OwnershipDecision(stores: map<StoreId, Store>, params: Option<string>, body: Option<string>,
                          query: Option<string>, userId: UserId, role: string)
    requires SelectStoreId(params, body, query).Some?
    ensures var id := SelectStoreId(params, body, query).value;
      var r := CheckStoreOwnership(stores, params, body, query, userId, role);
      (id !in stores ==> r == StoreFail(StoreNotFound))
      && (id in stores ==> (r == StorePass(id) <==> role == "admin" || stores[id].owner == userId))
      && (id in stores && r != StorePass(id) ==> r == StoreFail(NotStoreOwner))
  {
  }

  /** More allowed roles never refuse a request that fewer roles let through. */
  lemma AuthorizeMonotone(roles: seq<string>, more: seq<string>, role: string)
    requires forall r :: r in roles ==> r in more
    ensures Authorize(roles, role).None? ==> Authorize(more, role).None?
  {
  }

  /**
   * The only guarded feature, `aiLandingPage`, passes the gate exactly for an enterprise
   * bundle among the plan bundles.
   */
  lemma AiGateOnlyEnterprise(s: Subscription, p: Plan)
    requires s.features == Details(p).features
    ensures FeatureGate(Some(s), FeatureName(AiLandingPage)).None? <==> p == Enterprise
  {
    GatePassesEnabled(s, AiLandingPage);
    AiLandingPageOnlyEnterprise(p);
  }

  /** For a capability switch, the gate passes exactly when the subscription has it switched on. */
  lemma GatePassesEnabled(s: Subscription, x: Feature)
    requires !IsLimit(x)
    ensures FeatureGate(Some(s), FeatureName(x)).None? <==> x in Enabled(s.features)
  {
    BooleanAccessIsEnabled(s.features, x);
  }
}
