/** The Stripe webhook (`POST /api/stripe/webhook`): a completed checkout
    raises the buyer to the plan of the price bought, a deleted subscription
    brings the customer back to 'free'. Both write the tier into the user's
    `app_metadata` and mirror it into the `profiles` table. */
module StripeWebhook {
  import opened Common

  /** The two configured price ids (`STRIPE_STANDARD_PRICE_ID`,
      `STRIPE_PRO_PRICE_ID`); an unset variable becomes the key "undefined". */
  datatype PriceConfig = PriceConfig(standardKey: string, proKey: string)

  /** `priceId ? PRICE_TO_TIER[priceId] : undefined`. The object literal lists
      the pro key last, so when both keys are equal the price means "pro". */
  function PriceToTier(cfg: PriceConfig, priceId: Option<string>): (t: Option<string>)
    ensures t.Some? <==> Truthy(priceId) && (priceId.value == cfg.standardKey || priceId.value == cfg.proKey)
    ensures t == Some("pro") <==> Truthy(priceId) && priceId.value == cfg.proKey
    ensures t == Some("standard") <==> Truthy(priceId) && priceId.value == cfg.standardKey && priceId.value != cfg.proKey
  {
    if !Truthy(priceId) then None
    else if priceId.value == cfg.proKey then Some("pro")
    else if priceId.value == cfg.standardKey then Some("standard")
    else None
  }

  /** The two fields of `app_metadata` the webhook writes. */
  datatype AppMeta = AppMeta(tier: Option<string>, stripeCustomerId: Option<string>)

  datatype AuthUser = AuthUser(id: string, email: Option<string>, meta: AppMeta)

  /** A `profiles` row; `renewsAt` stands for the columns the webhook does not write. */
  datatype ProfileRow = ProfileRow(stripeCustomerId: Option<string>, tier: string, updatedAt: int, renewsAt: Option<int>)

  /** `Array.prototype.find` as an index: the first position whose element
      satisfies `p`, or `|users|` when none does. */
  function FindFirst(users: seq<AuthUser>, p: AuthUser -> bool): (i: nat)
    ensures i <= |users|
    ensures forall j :: 0 <= j < i ==> !p(users[j])
    ensures i < |users| ==> p(users[i])
  {
    if users == [] then 0
    else if p(users[0]) then 0
    else 1 + FindFirst(users[1..], p)
  }

  /** `u.email?.toLowerCase() === customerEmail.toLowerCase()`. */
  predicate EmailMatches(u: AuthUser, email: string) {
    u.email.Some? && ToLower(u.email.value) == ToLower(email)
  }

  /** `(u.app_metadata)?.stripe_customer_id === customerId`. */
  predicate CustomerMatches(u: AuthUser, customerId: string) {
    u.meta.stripeCustomerId == Some(customerId)
  }

  lemma LowerCharIdempotent(c: char)
    ensures LowerChar(LowerChar(c)) == LowerChar(c)
  {
  }

  /** The fallback scan ignores the case of the address on both sides. */
  lemma {:induction false} EmailMatchIgnoresCase(u: AuthUser, email: string)
    ensures EmailMatches(u, email) <==> EmailMatches(u, ToLower(email))
  {
    var a := ToLower(email);
    var b := ToLower(a);
    forall i | 0 <= i < |email|
      ensures b[i] == a[i]
    {
      LowerCharIdempotent(email[i]);
    }
    assert a == b;
  }

  /** `customer_details?.email || customer_email || ""`. */
  function CheckoutEmail(detailsEmail: Option<string>, customerEmail: Option<string>): (e: string)
    ensures Truthy(detailsEmail) ==> e == detailsEmail.value
    ensures !Truthy(detailsEmail) && Truthy(customerEmail) ==> e == customerEmail.value
    ensures e == "" <==> !Truthy(detailsEmail) && !Truthy(customerEmail)
  {
    var r := OrElse(detailsEmail, customerEmail);
    if Truthy(r) then r.value else ""
  }

  /** Outcome of `listLineItems(session.id, { limit: 1 })`: a failure (caught
      and logged) or the first line's price id, if any. */
  datatype LineItems = ListFailed | FirstLine(priceId: Option<string>)

  function LinePrice(l: LineItems): Option<string> {
    if l.ListFailed? then None else l.priceId
  }

  /** The buyer of a checkout: the `user_index` row for the exact address,
      unless that lookup fails or gives a falsy id; then the first listed auth
      user whose address matches ignoring case. If the listing fails the
      index's answer stands. */
  function CheckoutUser(userIndex: map<string, string>, indexFails: bool, users: seq<AuthUser>, listFails: bool,
                        email: string): (u: Option<string>)
    ensures !indexFails && email in userIndex && userIndex[email] != "" ==> u == Some(userIndex[email])
    ensures Truthy(u) ==>
              (!indexFails && email in userIndex && u.value == userIndex[email])
              || (!listFails && exists i :: 0 <= i < |users| && EmailMatches(users[i], email) && users[i].id == u.value)
    ensures (indexFails || email !in userIndex || userIndex[email] == "") && !listFails ==>
              (u.Some? <==> exists i :: 0 <= i < |users| && EmailMatches(users[i], email))
    ensures (indexFails || email !in userIndex || userIndex[email] == "") && !listFails && u.Some? ==>
              exists i :: 0 <= i < |users| && EmailMatches(users[i], email) && users[i].id == u.value
                          && forall j :: 0 <= j < i ==> !EmailMatches(users[j], email)
  {
    var idx := if indexFails || email !in userIndex then None else Some(userIndex[email]);
    if Truthy(idx) || listFails then idx
    else
      var i := FindFirst(users, u => EmailMatches(u, email));
      if i < |users| then Some(users[i].id) else None
  }

  /** The canceller of a subscription by the `app_metadata` scan: the first
      listed user carrying that Stripe customer id. */
  function CustomerUser(users: seq<AuthUser>, customerId: string): (u: Option<string>)
    ensures u.Some? <==> exists i :: 0 <= i < |users| && CustomerMatches(users[i], customerId)
    ensures u.Some? ==> exists i :: 0 <= i < |users| && CustomerMatches(users[i], customerId) && users[i].id == u.value
                                   && forall j :: 0 <= j < i ==> !CustomerMatches(users[j], customerId)
  {
    var i := FindFirst(users, u => CustomerMatches(u, customerId));
    if i < |users| then Some(users[i].id) else None
  }

  /** `k` is the one profile carrying `customerId`: what `maybeSingle` returns
      without error. */
  predicate SoleOwner(profiles: map<string, ProfileRow>, customerId: string, k: string) {
    && k in profiles
    && profiles[k].stripeCustomerId == Some(customerId)
    && forall k2 :: k2 in profiles && profiles[k2].stripeCustomerId == Some(customerId) ==> k2 == k
  }

  /** The `app_metadata` update: `tier` is set, `stripe_customer_id` only when
      one is given; the auth server merges the keys into the existing ones. */
  function MergeMeta(m: AppMeta, tier: string, customerId: Option<string>): (r: AppMeta)
    ensures r.tier == Some(tier)
    ensures r.stripeCustomerId == if Truthy(customerId) then customerId else m.stripeCustomerId
  {
    AppMeta(Some(tier), if Truthy(customerId) then customerId else m.stripeCustomerId)
  }

  /** `updateUserById(userId, { app_metadata })` applied to the user list. */
  function UpdateUser(users: seq<AuthUser>, userId: string, tier: string, customerId: Option<string>)
    : (r: seq<AuthUser>)
    ensures |r| == |users|
    ensures forall i :: 0 <= i < |users| && users[i].id != userId ==> r[i] == users[i]
    ensures forall i :: 0 <= i < |users| && users[i].id == userId ==>
              r[i].id == userId && r[i].email == users[i].email && r[i].meta == MergeMeta(users[i].meta, tier, customerId)
  {
    seq(|users|, i requires 0 <= i < |users| =>
      if users[i].id == userId then users[i].(meta := MergeMeta(users[i].meta, tier, customerId)) else users[i])
  }

  /** The `profiles` upsert on `id`: `stripe_customer_id` (null when absent),
      `tier` and `updated_at` are written, other columns keep their values. */
  function UpsertProfile(profiles: map<string, ProfileRow>, userId: string, tier: string,
                         customerId: Option<string>, now: int): (r: map<string, ProfileRow>)
    ensures r.Keys == profiles.Keys + {userId}
    ensures forall k :: k in profiles && k != userId ==> r[k] == profiles[k]
    ensures r[userId].tier == tier && r[userId].stripeCustomerId == customerId && r[userId].updatedAt == now
    ensures userId in profiles ==> r[userId].renewsAt == profiles[userId].renewsAt
  {
    var base := if userId in profiles then profiles[userId] else ProfileRow(None, tier, now, None);
    profiles[userId := base.(stripeCustomerId := customerId, tier := tier, updatedAt := now)]
  }

  /** A checkout followed by the cancellation of the same customer leaves the
      user on 'free' in both places, still linked to the customer. */
  lemma {:induction false} CancelUndoesCheckout(users: seq<AuthUser>, profiles: map<string, ProfileRow>, userId: string,
                                                tier: string, customerId: string, t1: int, t2: int, i: int)
    requires customerId != "" && 0 <= i < |users| && users[i].id == userId
    ensures var u := UpdateUser(UpdateUser(users, userId, tier, Some(customerId)), userId, "free", Some(customerId));
            u[i].meta == AppMeta(Some("free"), Some(customerId))
    ensures var p := UpsertProfile(UpsertProfile(profiles, userId, tier, Some(customerId), t1),
                                   userId, "free", Some(customerId), t2);
            p[userId].tier == "free" && p[userId].stripeCustomerId == Some(customerId)
  {
    var u1 := UpdateUser(users, userId, tier, Some(customerId));
    assert u1[i].id == userId;
  }

  /** The webhook's write outcome: applied, refused (an error the handler does
      not look at) or thrown (caught by the handler, which answers 500). */
  datatype WriteOutcome = Applied | Refused | Thrown

  /** The event `constructEvent` yields from a correctly signed body. */
  datatype Event =
    | CheckoutCompleted(sessionDetailsEmail: Option<string>, sessionCustomerEmail: Option<string>,
                        customer: Option<string>)
    | SubscriptionDeleted(subCustomer: string)
    | OtherEvent(kind: string)

  datatype Response =
    | BadSignature       // 400 "Bad signature"
    | NoEmail            // 200 { ok: true }
    | Received           // 200 { received: true }
    | HandlerError       // 500 "Webhook error"

  /** The store faults of one request. */
  datatype Faults = Faults(lineItems: LineItems, indexFails: bool, profileLookupFails: bool, listFails: bool,
                           metaWrite: WriteOutcome, profileWrite: WriteOutcome)

  class Accounts {
    var users: seq<AuthUser>
    var profiles: map<string, ProfileRow>
    /** `user_index`: e-mail address to user id. */
    var userIndex: map<string, string>

    constructor(users0: seq<AuthUser>, profiles0: map<string, ProfileRow>, index0: map<string, string>)
      ensures users == users0 && profiles == profiles0 && userIndex == index0
    {
      users := users0;
      profiles := profiles0;
      userIndex := index0;
    }

    /** `setUserTierById`: the metadata update, then the profile upsert. A
        thrown write ends the handler (and skips the upsert); a refused one is
        ignored. */
    method SetUserTierById(userId: string, tier: string, customerId: Option<string>, now: int,
                           metaWrite: WriteOutcome, profileWrite: WriteOutcome) returns (thrown: bool)
      modifies this
      ensures thrown <==> metaWrite.Thrown? || profileWrite.Thrown?
      ensures users == if metaWrite.Applied? then UpdateUser(old(users), userId, tier, customerId) else old(users)
      ensures profiles == if !metaWrite.Thrown? && profileWrite.Applied?
                          then UpsertProfile(old(profiles), userId, tier, customerId, now) else old(profiles)
      ensures userIndex == old(userIndex)
    {
      if metaWrite.Thrown? {
        return true;
      }
      if metaWrite.Applied? {
        users := UpdateUser(users, userId, tier, customerId);
      }
      if profileWrite.Thrown? {
        return true;
      }
      if profileWrite.Applied? {
        profiles := UpsertProfile(profiles, userId, tier, customerId, now);
      }
      thrown := false;
    }

    /** The profile lookup of a cancellation: `maybeSingle` answers only when
        exactly one profile carries the customer id. */
    method ProfileOwner(customerId: string, lookupFails: bool) returns (owner: Option<string>)
      ensures owner.Some? <==> !lookupFails && exists k :: SoleOwner(profiles, customerId, k)
      ensures owner.Some? ==> SoleOwner(profiles, customerId, owner.value)
    {
      if !lookupFails && exists k | k in profiles :: SoleOwner(profiles, customerId, k) {
        var k :| k in profiles && SoleOwner(profiles, customerId, k);
        owner := Some(k);
      } else {
        owner := None;
      }
    }

    /** The effect of `setUserTierById(uid, "free", customerId)` on this request. */
    twostate predicate Downgraded(uid: string, customerId: string, f: Faults, now: int, res: Response)
      reads this
    {
      && (res == if f.metaWrite.Thrown? || f.profileWrite.Thrown? then HandlerError else Received)
      && users == (if f.metaWrite.Applied? then UpdateUser(old(users), uid, "free", Some(customerId)) else old(users))
      && profiles == (if !f.metaWrite.Thrown? && f.profileWrite.Applied?
                      then UpsertProfile(old(profiles), uid, "free", Some(customerId), now) else old(profiles))
    }

    /** `POST /api/stripe/webhook` at instant `now`; `event` is what
        `constructEvent` gives, `None` when the signature does not check. */
    method Post(event: Option<Event>, cfg: PriceConfig, f: Faults, now: int) returns (res: Response)
      modifies this
      ensures userIndex == old(userIndex)
      ensures event.None? ==> res == BadSignature && users == old(users) && profiles == old(profiles)
      ensures event.Some? && event.value.OtherEvent? ==>
                res == Received && users == old(users) && profiles == old(profiles)
      ensures event.Some? && event.value.CheckoutCompleted? ==>
                var e := event.value;
                var email := CheckoutEmail(e.sessionDetailsEmail, e.sessionCustomerEmail);
                var tier := PriceToTier(cfg, LinePrice(f.lineItems));
                var uid := CheckoutUser(old(userIndex), f.indexFails, old(users), f.listFails, email);
                var cid := if Truthy(e.customer) then e.customer else None;
                if email == "" then res == NoEmail && users == old(users) && profiles == old(profiles)
                else if Truthy(uid) && tier.Some? then
                  && (res == if f.metaWrite.Thrown? || f.profileWrite.Thrown? then HandlerError else Received)
                  && users == (if f.metaWrite.Applied? then UpdateUser(old(users), uid.value, tier.value, cid)
                               else old(users))
                  && profiles == (if !f.metaWrite.Thrown? && f.profileWrite.Applied?
                                  then UpsertProfile(old(profiles), uid.value, tier.value, cid, now)
                                  else old(profiles))
                else res == Received && users == old(users) && profiles == old(profiles)
      ensures event.Some? && event.value.SubscriptionDeleted? ==>
                var cid := event.value.subCustomer;
                var byProfile := !f.profileLookupFails && exists k :: SoleOwner(old(profiles), cid, k) && k != "";
                var byMeta := if f.listFails then None else CustomerUser(old(users), cid);
                && (!byProfile && !Truthy(byMeta) ==>
                      res == Received && users == old(users) && profiles == old(profiles))
                && (byProfile ==>
                      exists uid :: SoleOwner(old(profiles), cid, uid) && uid != "" && Downgraded(uid, cid, f, now, res))
                && (!byProfile && Truthy(byMeta) ==> Downgraded(byMeta.value, cid, f, now, res))
    {
      if event.None? {
        return BadSignature;
      }
      match event.value
      case OtherEvent(_) =>
        res := Received;
      case CheckoutCompleted(detailsEmail, customerEmail, customer) =>
        var email := CheckoutEmail(detailsEmail, customerEmail);
        var customerId := if Truthy(customer) then customer else None;
        var priceId := LinePrice(f.lineItems);
        var tier := PriceToTier(cfg, priceId);
        if email == "" {
          return NoEmail;
        }
        var userId := CheckoutUser(userIndex, f.indexFails, users, f.listFails, email);
        if Truthy(userId) && tier.Some? {
          var thrown := SetUserTierById(userId.value, tier.value, customerId, now, f.metaWrite, f.profileWrite);
          res := if thrown then HandlerError else Received;
        } else {
          res := Received;
        }
      case SubscriptionDeleted(customerId) =>
        var userId := ProfileOwner(customerId, f.profileLookupFails);
        if !Truthy(userId) && !f.listFails {
          userId := CustomerUser(users, customerId);
        }
        if Truthy(userId) {
          var thrown := SetUserTierById(userId.value, "free", Some(customerId), now, f.metaWrite, f.profileWrite);
          res := if thrown then HandlerError else Received;
        } else {
          res := Received;
        }
    }
  }
}
