/**
 apps/platform-api: users, API keys, sellers and the catalog, and the functions that change them: registration, role
 grants, key rotation and revocation, catalog submissions, and the operator's reviews.
 */
module PlatformAccounts {
  import opened Wrappers

  datatype Review = Pending | Approved | Rejected

  datatype User = User(contactEmail: string, apiKey: Option<string>, roles: seq<string>)

  datatype KeyRecord =
    | AdminKey
    | BuyerKey(userId: string, scopes: seq<string>)
    | SellerKey(sellerId: string, ownerUserId: string, subagentIds: seq<string>)

  /** What a submission may change of a seller, besides its list. */
  datatype Profile = Profile(contactEmail: string, supportEmail: string, publicKeyPem: string)

  datatype Seller = Seller(
    ownerUserId: string,
    apiKey: Option<string>,
    subagentIds: seq<string>,
    profile: Profile,
    review: Review,
    enabled: bool
  )

  datatype Item = Item(sellerId: string, publicKeyPem: string, review: Review, enabled: bool)

  datatype Platform = Platform(
    users: map<string, User>,
    apiKeys: map<string, KeyRecord>,
    sellers: map<string, Seller>,
    catalog: map<string, Item>
  )

  /** `Array.from(new Set([...s, x]))` */
  function WithMember(s: seq<string>, x: string): (r: seq<string>)
    ensures forall y :: y in r <==> y in s || y == x
    ensures NoDup(r)
    ensures NoDup(s) ==> r == if x in s then s else s + [x]
  {
    var d := Deduped(s);
    if x in d then d else d + [x]
  }

  function Deduped(s: seq<string>): (r: seq<string>)
    ensures forall y :: y in r <==> y in s
    ensures NoDup(r) && (NoDup(s) ==> r == s)
  {
    if s == [] then []
    else
      var init, last := s[..|s| - 1], s[|s| - 1];
      var d := Deduped(init);
      assert s == init + [last];
      if last in d then d else d + [last]
  }

  // ----- users and keys -----

  /** registerBuyerUser; "" stands for a missing address. */
  function Register(p: Platform, contactEmail: string, userId: string, key: string): Platform {
    if contactEmail == "" then p
    else p.(users := p.users[userId := User(contactEmail, Some(key), ["buyer"])],
            apiKeys := p.apiKeys[key := BuyerKey(userId, ["buyer"])])
  }

  function Granted(record: KeyRecord, userId: string, role: string): KeyRecord {
    if record.BuyerKey? && record.userId == userId then record.(scopes := WithMember(record.scopes, role)) else record
  }

  /** addUserRole */
  function GrantRole(p: Platform, userId: string, role: string): Platform {
    if userId !in p.users then p
    else p.(users := p.users[userId := p.users[userId].(roles := WithMember(p.users[userId].roles, role))],
            apiKeys := map k | k in p.apiKeys :: Granted(p.apiKeys[k], userId, role))
  }

  /** revokeApiKey */
  function Revoke(p: Platform, key: string): Platform {
    if key !in p.apiKeys then p
    else
      var q := p.(apiKeys := p.apiKeys - {key});
      match p.apiKeys[key]
      case AdminKey => q
      case BuyerKey(u, _) =>
        if u in p.users && p.users[u].apiKey == Some(key)
        then q.(users := p.users[u := p.users[u].(apiKey := None)]) else q
      case SellerKey(s, _, _) =>
        if s in p.sellers && p.sellers[s].apiKey == Some(key)
        then q.(sellers := p.sellers[s := p.sellers[s].(apiKey := None)]) else q
  }

  function Others(roles: seq<string>): (r: seq<string>)
    ensures forall y :: y in r <==> y in roles && y != "buyer"
  {
    Without(roles, "buyer")
  }

  function RotateBuyer(p: Platform, userId: string, key: string): Platform {
    if userId !in p.users then p
    else
      var q := if p.users[userId].apiKey.Some? then Revoke(p, p.users[userId].apiKey.value) else p;
      q.(users := q.users[userId := q.users[userId].(apiKey := Some(key))],
         apiKeys := q.apiKeys[key := BuyerKey(userId, ["buyer"] + Others(p.users[userId].roles))])
  }

  function RotateSeller(p: Platform, sellerId: string, key: string): Platform {
    if sellerId !in p.sellers then p
    else
      var seller := p.sellers[sellerId];
      var q := if seller.apiKey.Some? then Revoke(p, seller.apiKey.value) else p;
      q.(sellers := q.sellers[sellerId := q.sellers[sellerId].(apiKey := Some(key))],
         apiKeys := q.apiKeys[key := SellerKey(sellerId, seller.ownerUserId, seller.subagentIds)])
  }

  // ----- submissions -----

  /** Body fields; "" stands for a missing one. */
  datatype Submission = Submission(sellerId: string, subagentId: string, displayName: string, publicKeyPem: string,
                                   contactEmail: string, supportEmail: string, ownerUserId: string)

  /** The ids drawn for a new seller. */
  datatype Fill = Fill(ownerUserId: string, key: string)

  datatype Caller = BuyerCaller(userId: string) | SellerCaller(sellerId: string)

  datatype Refusal = Invalid | IdTaken | QuotaExceeded | Unauthorized | Forbidden

  predicate CanManage(caller: Caller, sellerId: string, seller: Seller) {
    match caller
    case BuyerCaller(userId) => seller.ownerUserId == userId
    case SellerCaller(id) => id == sellerId
  }

  function OrElse(a: string, b: string): string {
    if a != "" then a else b
  }

  function UserIdOf(caller: Option<Caller>): string {
    if caller.Some? && caller.value.BuyerCaller? then caller.value.userId else ""
  }

  function Quota(limit: int): int {
    if limit == 0 then 25 else limit
  }

  /** Why a submission is turned away; None when it is accepted. */
  function SubmissionRefusal(p: Platform, limit: int, b: Submission, caller: Option<Caller>,
                             anyone: bool): Option<Refusal> {
    if b.sellerId == "" || b.subagentId == "" || b.displayName == "" || b.publicKeyPem == "" then Some(Invalid)
    else if b.subagentId in p.catalog && p.catalog[b.subagentId].sellerId != b.sellerId then Some(IdTaken)
    else if b.sellerId in p.sellers && b.subagentId !in p.catalog && |p.sellers[b.sellerId].subagentIds| >= Quota(limit)
    then Some(QuotaExceeded)
    else if b.sellerId !in p.sellers && caller == None && !anyone then Some(Unauthorized)
    else if b.sellerId in p.sellers && caller == None then Some(Unauthorized)
    else if b.sellerId in p.sellers && !CanManage(caller.value, b.sellerId, p.sellers[b.sellerId]) then Some(Forbidden)
    else None
  }

  function Submitted(old': Profile, b: Submission): Profile {
    Profile(OrElse(b.contactEmail, old'.contactEmail), OrElse(b.supportEmail, old'.supportEmail), b.publicKeyPem)
  }

  function OwnerOf(p: Platform, b: Submission, caller: Option<Caller>, fill: Fill): string {
    OrElse(if b.sellerId in p.sellers then p.sellers[b.sellerId].ownerUserId else "",
           OrElse(OrElse(UserIdOf(caller), b.ownerUserId), fill.ownerUserId))
  }

  function ContactOf(p: Platform, userId: string): string {
    if userId in p.users then p.users[userId].contactEmail else ""
  }

  /** The addresses a new seller gets where the submission has none. */
  function DefaultProfile(p: Platform, b: Submission, owner: string): Profile {
    Profile(OrElse(ContactOf(p, owner), b.sellerId + "@test.local"), "support+" + b.sellerId + "@test.local",
            b.publicKeyPem)
  }

  /** The seller record after an accepted submission. */
  function SellerAfter(p: Platform, b: Submission, caller: Option<Caller>, fill: Fill): Seller {
    if b.sellerId in p.sellers then
      var s := p.sellers[b.sellerId];
      var t := s.(subagentIds := WithMember(s.subagentIds, b.subagentId), profile := Submitted(s.profile, b));
      if t.profile != s.profile then t.(review := Pending, enabled := false) else t
    else
      Seller(OwnerOf(p, b, caller, fill), Some(fill.key), [b.subagentId],
             Submitted(DefaultProfile(p, b, OwnerOf(p, b, caller, fill)), b), Pending, false)
  }

  /** The key the answer names; after a revocation it is a new one that the seller record does not get. */
  function SubmissionKey(p: Platform, b: Submission, fill: Fill): string {
    if b.sellerId in p.sellers && p.sellers[b.sellerId].apiKey.Some? then p.sellers[b.sellerId].apiKey.value
    else fill.key
  }

  /** The records an accepted submission writes. */
  function Filed(p: Platform, b: Submission, caller: Option<Caller>, fill: Fill): Platform {
    var seller := SellerAfter(p, b, caller, fill);
    p.(sellers := p.sellers[b.sellerId := seller],
       apiKeys := p.apiKeys[SubmissionKey(p, b, fill) :=
                            SellerKey(b.sellerId, OwnerOf(p, b, caller, fill), seller.subagentIds)],
       catalog := p.catalog[b.subagentId := Item(b.sellerId, b.publicKeyPem, Pending, false)])
  }

  /** submitCatalogSubagent; `anyone` is allowUnauthenticatedCreate. */
  function Submit(p: Platform, limit: int, b: Submission, caller: Option<Caller>, anyone: bool, fill: Fill): Platform {
    if SubmissionRefusal(p, limit, b, caller, anyone).Some? then p
    else if UserIdOf(caller) != "" then GrantRole(Filed(p, b, caller, fill), UserIdOf(caller), "seller")
    else Filed(p, b, caller, fill)
  }

  // ----- reviews -----

  datatype Decision = Approve | Reject | Enable | Disable

  /** The review state after an operator's decision; enabling what is not approved is refused. */
  function Reviewed(d: Decision, review: Review, enabled: bool): (Review, bool) {
    match d
    case Approve => (Approved, true)
    case Reject => (Rejected, false)
    case Enable => (review, enabled || review == Approved)
    case Disable => (review, false)
  }

  function ReviewSeller(p: Platform, id: string, d: Decision): Platform {
    if id !in p.sellers then p
    else
      var (review, enabled) := Reviewed(d, p.sellers[id].review, p.sellers[id].enabled);
      p.(sellers := p.sellers[id := p.sellers[id].(review := review, enabled := enabled)])
  }

  function ReviewItem(p: Platform, id: string, d: Decision): Platform {
    if id !in p.catalog then p
    else
      var (review, enabled) := Reviewed(d, p.catalog[id].review, p.catalog[id].enabled);
      p.(catalog := p.catalog[id := p.catalog[id].(review := review, enabled := enabled)])
  }

  /** resolveCatalogVisibility is "public". */
  predicate Visible(p: Platform, id: string) {
    && id in p.catalog && p.catalog[id].review == Approved && p.catalog[id].enabled
    && p.catalog[id].sellerId in p.sellers
    && p.sellers[p.catalog[id].sellerId].review == Approved && p.sellers[p.catalog[id].sellerId].enabled
  }

  /** The caller is the seller itself or the user who owns it. */
  ghost predicate OwnSeller(caller: Option<Caller>, sellerId: string, seller: Seller) {
    || caller == Some(SellerCaller(sellerId))
    || caller == Some(BuyerCaller(seller.ownerUserId))
  }

  /** What an accepted submission has to be. */
  ghost predicate Acceptable(p: Platform, limit: int, b: Submission, caller: Option<Caller>, anyone: bool) {
    var max := if limit == 0 then 25 else limit;
    && b.sellerId != "" && b.subagentId != "" && b.displayName != "" && b.publicKeyPem != ""
    && (b.subagentId in p.catalog ==> p.catalog[b.subagentId].sellerId == b.sellerId)
    && (if b.sellerId in p.sellers then
          && OwnSeller(caller, b.sellerId, p.sellers[b.sellerId])
          && (b.subagentId !in p.catalog ==> |p.sellers[b.sellerId].subagentIds| < max)
        else caller != None || anyone)
  }

  /** ... and nothing else is asked of it. */
  lemma AcceptedIff(p: Platform, limit: int, b: Submission, caller: Option<Caller>, anyone: bool)
    ensures SubmissionRefusal(p, limit, b, caller, anyone) == None <==> Acceptable(p, limit, b, caller, anyone)
  {
  }

  /** A known seller keeps owner and key, and is up for review again if its addresses or its public key change. */
  ghost predicate Resubmitted(s: Seller, t: Seller, b: Submission) {
    var same := && s.profile.publicKeyPem == b.publicKeyPem
                && (b.contactEmail == "" || b.contactEmail == s.profile.contactEmail)
                && (b.supportEmail == "" || b.supportEmail == s.profile.supportEmail);
    && t.ownerUserId == s.ownerUserId && t.apiKey == s.apiKey
    && (forall x :: x in t.subagentIds <==> x in s.subagentIds || x == b.subagentId)
    && t.profile.publicKeyPem == b.publicKeyPem
    && t.profile.contactEmail == (if b.contactEmail == "" then s.profile.contactEmail else b.contactEmail)
    && t.profile.supportEmail == (if b.supportEmail == "" then s.profile.supportEmail else b.supportEmail)
    && t.review == (if same then s.review else Pending) && t.enabled == (same && s.enabled)
  }

  /** A new one belongs to the user who submits it, or else the one that is named, and is up for review. */
  ghost predicate Founded(p: Platform, t: Seller, b: Submission, caller: Option<Caller>, fill: Fill) {
    var byUser := caller.Some? && caller.value.BuyerCaller? && caller.value.userId != "";
    && t.ownerUserId == (if byUser then caller.value.userId else if b.ownerUserId != "" then b.ownerUserId
                         else fill.ownerUserId)
    && t.apiKey == Some(fill.key) && t.subagentIds == [b.subagentId] && t.review == Pending && !t.enabled
    && t.profile.publicKeyPem == b.publicKeyPem
    && t.profile.contactEmail ==
       (if b.contactEmail != "" then b.contactEmail
        else if t.ownerUserId in p.users && p.users[t.ownerUserId].contactEmail != ""
        then p.users[t.ownerUserId].contactEmail
        else b.sellerId + "@test.local")
    && t.profile.supportEmail ==
       (if b.supportEmail != "" then b.supportEmail else "support+" + b.sellerId + "@test.local")
  }

  lemma SellerAfterSays(p: Platform, b: Submission, caller: Option<Caller>, fill: Fill)
    ensures b.sellerId in p.sellers ==> Resubmitted(p.sellers[b.sellerId], SellerAfter(p, b, caller, fill), b)
    ensures b.sellerId !in p.sellers ==> Founded(p, SellerAfter(p, b, caller, fill), b, caller, fill)
  {
    hide NoDup;
  }

  /** The one seller, entry and key that an accepted submission writes, and the review each of them is in. */
  lemma SubmitWrites(p: Platform, limit: int, b: Submission, caller: Option<Caller>, anyone: bool, fill: Fill)
    requires Acceptable(p, limit, b, caller, anyone)
    ensures var q := Submit(p, limit, b, caller, anyone, fill);
            && q.catalog == p.catalog[b.subagentId := Item(b.sellerId, b.publicKeyPem, Pending, false)]
            && b.sellerId in q.sellers && q.sellers == p.sellers[b.sellerId := q.sellers[b.sellerId]]
            && (b.sellerId in p.sellers ==> Resubmitted(p.sellers[b.sellerId], q.sellers[b.sellerId], b))
            && (b.sellerId !in p.sellers ==> Founded(p, q.sellers[b.sellerId], b, caller, fill))
  {
    AcceptedIff(p, limit, b, caller, anyone);
    SellerAfterSays(p, b, caller, fill);
    GrantKeepsLists(Filed(p, b, caller, fill), UserIdOf(caller), "seller");
    hide SubmissionRefusal, SubmissionKey, OwnerOf, SellerAfter, Resubmitted, Founded, Acceptable, GrantRole, UserIdOf;
  }

  lemma SubmitSays(p: Platform, limit: int, b: Submission, caller: Option<Caller>, anyone: bool, fill: Fill)
    requires SubmissionRefusal(p, limit, b, caller, anyone) == None
    ensures var q := Submit(p, limit, b, caller, anyone, fill);
            && b.subagentId in q.catalog && q.catalog[b.subagentId].sellerId == b.sellerId && !Visible(q, b.subagentId)
            && b.sellerId in q.sellers && b.subagentId in q.sellers[b.sellerId].subagentIds
            && SubmissionKey(p, b, fill) in q.apiKeys
  {
    hide SubmissionRefusal, SubmissionKey, OwnerOf, DefaultProfile, Submitted;
    assert b.subagentId in SellerAfter(p, b, caller, fill).subagentIds;
    hide SellerAfter, NoDup;
    GrantKeepsLists(Filed(p, b, caller, fill), UserIdOf(caller), "seller");
    hide GrantRole, UserIdOf;
  }

  lemma GrantKeepsLists(p: Platform, userId: string, role: string)
    ensures var q := GrantRole(p, userId, role);
            q.sellers == p.sellers && q.catalog == p.catalog
            && q.apiKeys.Keys == p.apiKeys.Keys
  {
  }

  // ----- the platform state, updated in place -----

  class Accounts {
    const limit: int
    var users: map<string, User>
    var apiKeys: map<string, KeyRecord>
    var sellers: map<string, Seller>
    var catalog: map<string, Item>

    function View(): Platform
      reads this
    {
      Platform(users, apiKeys, sellers, catalog)
    }

    constructor (limit: int, p: Platform)
      ensures this.limit == limit && View() == p
    {
      this.limit := limit;
      users, apiKeys, sellers, catalog := p.users, p.apiKeys, p.sellers, p.catalog;
    }

    method RegisterBuyerUser(contactEmail: string, userId: string, key: string) returns (done: bool)
      modifies this`users, this`apiKeys
      ensures View() == Register(old(View()), contactEmail, userId, key)
      ensures done <==> contactEmail != ""
      ensures done ==> key in apiKeys && apiKeys[key].BuyerKey? && apiKeys[key].userId == userId
                       && userId in users && users[userId].apiKey == Some(key)
                       && apiKeys[key].scopes == users[userId].roles
      ensures done ==> users == old(users)[userId := User(contactEmail, Some(key), ["buyer"])]
    {
      if contactEmail == "" {
        return false;
      }
      users := users[userId := User(contactEmail, Some(key), ["buyer"])];
      apiKeys := apiKeys[key := BuyerKey(userId, ["buyer"])];
      return true;
    }

    method AddUserRole(userId: string, role: string) returns (found: bool)
      modifies this`users, this`apiKeys
      ensures View() == GrantRole(old(View()), userId, role)
      ensures found <==> userId in old(users)
      ensures found ==> role in users[userId].roles && old(users)[userId].apiKey == users[userId].apiKey
      ensures found ==> forall k | k in apiKeys && apiKeys[k].BuyerKey? && apiKeys[k].userId == userId ::
                role in apiKeys[k].scopes
    {
      hide WithMember, NoDup;
      if userId !in users {
        return false;
      }
      users := users[userId := users[userId].(roles := WithMember(users[userId].roles, role))];
      var left := apiKeys.Keys;
      while left != {}
        invariant left <= apiKeys.Keys
        invariant users ==
                  old(users)[userId := old(users)[userId].(roles := WithMember(old(users)[userId].roles, role))]
        invariant apiKeys == map k | k in old(apiKeys) ::
                               if k in left then old(apiKeys)[k] else Granted(old(apiKeys)[k], userId, role)
      {
        var k :| k in left;
        left := left - {k};
        var record := apiKeys[k];
        if record.BuyerKey? && record.userId == userId {
          apiKeys := apiKeys[k := record.(scopes := WithMember(record.scopes, role))];
        }
      }
      return true;
    }

    method RevokeApiKey(key: string) returns (record: Option<KeyRecord>)
      modifies this`users, this`apiKeys, this`sellers
      ensures View() == Revoke(old(View()), key)
      ensures record == if key in old(apiKeys) then Some(old(apiKeys)[key]) else None
      ensures key !in apiKeys && apiKeys.Keys == old(apiKeys).Keys - {key}
    {
      if key !in apiKeys {
        return None;
      }
      record := Some(apiKeys[key]);
      apiKeys := apiKeys - {key};
      match record.value {
        case BuyerKey(u, _) =>
          if u in users && users[u].apiKey == Some(key) {
            users := users[u := users[u].(apiKey := None)];
          }
        case SellerKey(s, _, _) =>
          if s in sellers && sellers[s].apiKey == Some(key) {
            sellers := sellers[s := sellers[s].(apiKey := None)];
          }
        case AdminKey =>
      }
    }

    method RotateBuyerApiKey(userId: string, key: string) returns (found: bool)
      modifies this`users, this`apiKeys, this`sellers
      ensures View() == RotateBuyer(old(View()), userId, key)
      ensures found <==> userId in old(users)
      ensures found ==> key in apiKeys && apiKeys[key].BuyerKey? && apiKeys[key].userId == userId
                        && userId in users && users[userId].apiKey == Some(key)
      ensures found && old(users)[userId].apiKey.Some? && old(users)[userId].apiKey != Some(key) ==>
                old(users)[userId].apiKey.value !in apiKeys
    {
      if userId !in users {
        return false;
      }
      var roles := users[userId].roles;
      if users[userId].apiKey.Some? {
        var revoked := RevokeApiKey(users[userId].apiKey.value);
      }
      users := users[userId := users[userId].(apiKey := Some(key))];
      apiKeys := apiKeys[key := BuyerKey(userId, ["buyer"] + Others(roles))];
      return true;
    }

    method RotateSellerApiKey(sellerId: string, key: string) returns (found: bool)
      modifies this`users, this`apiKeys, this`sellers
      ensures View() == RotateSeller(old(View()), sellerId, key)
      ensures found <==> sellerId in old(sellers)
      ensures found ==> sellerId in sellers && sellers[sellerId].apiKey == Some(key)
                        && key in apiKeys
                        && apiKeys[key] ==
                           SellerKey(sellerId, sellers[sellerId].ownerUserId, sellers[sellerId].subagentIds)
      ensures found && old(sellers)[sellerId].apiKey.Some? && old(sellers)[sellerId].apiKey != Some(key) ==>
                old(sellers)[sellerId].apiKey.value !in apiKeys
    {
      if sellerId !in sellers {
        return false;
      }
      if sellers[sellerId].apiKey.Some? {
        var revoked := RevokeApiKey(sellers[sellerId].apiKey.value);
      }
      var seller := sellers[sellerId].(apiKey := Some(key));
      sellers := sellers[sellerId := seller];
      apiKeys := apiKeys[key := SellerKey(sellerId, seller.ownerUserId, seller.subagentIds)];
      return true;
    }

    /** The checks at the head of submitCatalogSubagent. */
    method CheckSubmission(b: Submission, caller: Option<Caller>, anyone: bool) returns (refusal: Option<Refusal>)
      ensures refusal == SubmissionRefusal(View(), limit, b, caller, anyone)
    {
      if b.sellerId == "" || b.subagentId == "" || b.displayName == "" || b.publicKeyPem == "" {
        return Some(Invalid);
      }
      var known, listed := b.sellerId in sellers, b.subagentId in catalog;
      if listed && catalog[b.subagentId].sellerId != b.sellerId {
        return Some(IdTaken);
      }
      if known && !listed && |sellers[b.sellerId].subagentIds| >= (if limit == 0 then 25 else limit) {
        return Some(QuotaExceeded);
      }
      if !known && caller == None && !anyone {
        return Some(Unauthorized);
      }
      if known {
        if caller == None {
          return Some(Unauthorized);
        }
        if !CanManage(caller.value, b.sellerId, sellers[b.sellerId]) {
          return Some(Forbidden);
        }
      }
      return None;
    }

    /** `existingSeller?.owner_user_id || auth?.user_id || body.owner_user_id || randomId("user")` */
    method OwnerFor(b: Submission, caller: Option<Caller>, fill: Fill) returns (owner: string)
      ensures owner == OwnerOf(View(), b, caller, fill)
    {
      owner := if b.sellerId in sellers then sellers[b.sellerId].ownerUserId else "";
      if owner == "" && caller.Some? && caller.value.BuyerCaller? {
        owner := caller.value.userId;
      }
      if owner == "" {
        owner := b.ownerUserId;
      }
      if owner == "" {
        owner := fill.ownerUserId;
      }
    }

    /** The record the submission leaves of its seller, known or new. */
    method SellerFor(b: Submission, caller: Option<Caller>, fill: Fill, owner: string, key: string)
        returns (seller: Seller)
      requires owner == OwnerOf(View(), b, caller, fill) && key == SubmissionKey(View(), b, fill)
      ensures seller == SellerAfter(View(), b, caller, fill)
    {
      hide OwnerOf;
      var known := b.sellerId in sellers;
      if known {
        seller := sellers[b.sellerId];
      } else {
        var contact := b.sellerId + "@test.local";
        if owner in users && users[owner].contactEmail != "" {
          contact := users[owner].contactEmail;
        }
        seller := Seller(owner, Some(key), [],
                         Profile(contact, "support+" + b.sellerId + "@test.local", b.publicKeyPem), Pending, false);
      }
      var profile := seller.profile.(publicKeyPem := b.publicKeyPem);
      if b.contactEmail != "" {
        profile := profile.(contactEmail := b.contactEmail);
      }
      if b.supportEmail != "" {
        profile := profile.(supportEmail := b.supportEmail);
      }
      if !known || profile != seller.profile {
        seller := seller.(review := Pending, enabled := false);
      }
      seller := seller.(profile := profile, subagentIds := WithMember(seller.subagentIds, b.subagentId));
    }

    /** The records of an accepted submission. */
    method FileSubmission(b: Submission, caller: Option<Caller>, fill: Fill) returns (key: string)
      modifies this`apiKeys, this`sellers, this`catalog
      ensures View() == Filed(old(View()), b, caller, fill) && key == SubmissionKey(old(View()), b, fill)
    {
      hide OwnerOf, SellerAfter;
      key := fill.key;
      if b.sellerId in sellers && sellers[b.sellerId].apiKey.Some? {
        key := sellers[b.sellerId].apiKey.value;
      }
      var owner := OwnerFor(b, caller, fill);
      var seller := SellerFor(b, caller, fill, owner, key);
      sellers := sellers[b.sellerId := seller];
      apiKeys := apiKeys[key := SellerKey(b.sellerId, owner, seller.subagentIds)];
      catalog := catalog[b.subagentId := Item(b.sellerId, b.publicKeyPem, Pending, false)];
    }

    method SubmitCatalogSubagent(b: Submission, caller: Option<Caller>, anyone: bool, fill: Fill)
        returns (answer: Result<string, Refusal>)
      modifies this`users, this`apiKeys, this`sellers, this`catalog
      ensures View() == Submit(old(View()), limit, b, caller, anyone, fill)
      ensures answer == match SubmissionRefusal(old(View()), limit, b, caller, anyone)
                        case Some(why) => Err(why)
                        case None => Ok(SubmissionKey(old(View()), b, fill))
      ensures answer.Ok? <==> Acceptable(old(View()), limit, b, caller, anyone)
      ensures answer.Err? ==> View() == old(View())
      ensures answer.Ok? ==>
                && b.subagentId in catalog && catalog[b.subagentId].sellerId == b.sellerId
                && !Visible(View(), b.subagentId)
                && b.sellerId in sellers && b.subagentId in sellers[b.sellerId].subagentIds
                && answer.value in apiKeys
    {
      hide SubmissionRefusal, OwnerOf, SellerAfter, GrantRole, Visible, Acceptable, WithMember, NoDup, Granted, Filed,
           SubmissionKey;
      AcceptedIff(View(), limit, b, caller, anyone);
      var refusal := CheckSubmission(b, caller, anyone);
      if refusal.Some? {
        return Err(refusal.value);
      }
      SubmitSays(View(), limit, b, caller, anyone, fill);
      var key := FileSubmission(b, caller, fill);
      if caller.Some? && caller.value.BuyerCaller? && caller.value.userId != "" {
        var found := AddUserRole(caller.value.userId, "seller");
      }
      return Ok(key);
    }

    method DecideSeller(id: string, d: Decision) returns (done: bool)
      modifies this`sellers
      ensures View() == ReviewSeller(old(View()), id, d)
      ensures done <==> id in old(sellers) && (d == Enable ==> old(sellers)[id].review == Approved)
      ensures done ==>
                && id in sellers && sellers[id].enabled == (d == Approve || d == Enable)
                && sellers[id].review ==
                   (if d == Approve then Approved else if d == Reject then Rejected else old(sellers)[id].review)
      ensures forall x | Visible(View(), x) && !Visible(old(View()), x) :: done && (d == Approve || d == Enable)
    {
      if id !in sellers || (d == Enable && sellers[id].review != Approved) {
        return false;
      }
      var seller := sellers[id];
      match d {
        case Approve => seller := seller.(review := Approved, enabled := true);
        case Reject => seller := seller.(review := Rejected, enabled := false);
        case Enable => seller := seller.(enabled := true);
        case Disable => seller := seller.(enabled := false);
      }
      sellers := sellers[id := seller];
      return true;
    }

    method DecideItem(id: string, d: Decision) returns (done: bool)
      modifies this`catalog
      ensures View() == ReviewItem(old(View()), id, d)
      ensures done <==> id in old(catalog) && (d == Enable ==> old(catalog)[id].review == Approved)
      ensures done ==>
                && id in catalog && catalog[id].enabled == (d == Approve || d == Enable)
                && catalog[id].review ==
                   (if d == Approve then Approved else if d == Reject then Rejected else old(catalog)[id].review)
      ensures forall x | Visible(View(), x) && !Visible(old(View()), x) ::
                done && x == id && (d == Approve || d == Enable)
    {
      if id !in catalog || (d == Enable && catalog[id].review != Approved) {
        return false;
      }
      var item := catalog[id];
      match d {
        case Approve => item := item.(review := Approved, enabled := true);
        case Reject => item := item.(review := Rejected, enabled := false);
        case Enable => item := item.(enabled := true);
        case Disable => item := item.(enabled := false);
      }
      catalog := catalog[id := item];
      return true;
    }
  }
}
