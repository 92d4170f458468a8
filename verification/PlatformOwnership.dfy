/** What holds of users, keys, sellers and the catalog after any sequence of operations. */
module PlatformOwnership {
  import opened Wrappers
  import opened PlatformAccounts

  datatype World = World(p: Platform, drawn: set<string>)    // drawn: every API key there ever was

  datatype Event =
    | RegisterUser(contactEmail: string, userId: string, key: string)
    | Grant(userId: string, role: string)
    | RotateBuyerKey(userId: string, key: string)
    | RotateSellerKey(sellerId: string, key: string)
    | RevokeKey(key: string)
    | SubmitSubagent(b: Submission, caller: Option<Caller>, anyone: bool, fill: Fill)
    | DecideOnSeller(sellerId: string, d: Decision)
    | DecideOnItem(subagentId: string, d: Decision)

  function Drawn(e: Event): set<string> {
    match e
    case RegisterUser(_, _, key) => {key}
    case RotateBuyerKey(_, key) => {key}
    case RotateSellerKey(_, key) => {key}
    case SubmitSubagent(_, _, _, fill) => {fill.key}
    case _ => {}
  }

  function Apply(limit: int, p: Platform, e: Event): Platform {
    match e
    case RegisterUser(contactEmail, userId, key) => Register(p, contactEmail, userId, key)
    case Grant(userId, role) => GrantRole(p, userId, role)
    case RotateBuyerKey(userId, key) => RotateBuyer(p, userId, key)
    case RotateSellerKey(sellerId, key) => RotateSeller(p, sellerId, key)
    case RevokeKey(key) => Revoke(p, key)
    case SubmitSubagent(b, caller, anyone, fill) => Submit(p, limit, b, caller, anyone, fill)
    case DecideOnSeller(sellerId, d) => ReviewSeller(p, sellerId, d)
    case DecideOnItem(subagentId, d) => ReviewItem(p, subagentId, d)
  }

  /** Generated keys and user ids are new. */
  ghost predicate Fresh(w: World, e: Event) {
    && Drawn(e) !! w.drawn
    && (e.RegisterUser? ==> e.userId !in w.p.users)
    && (e.SubmitSubagent? ==> e.fill.ownerUserId != "")
  }

  ghost predicate Next(limit: int, w: World, e: Event, w': World) {
    Fresh(w, e) && w' == World(Apply(limit, w.p, e), w.drawn + Drawn(e))
  }

  /** A run from any consistent platform, the bootstrapped one for instance. */
  ghost predicate IsRun(limit: int, states: seq<World>, events: seq<Event>) {
    && |states| == |events| + 1 && Inv(limit, states[0])
    && forall i {:trigger events[i]} | 0 <= i < |events| :: Next(limit, states[i], events[i], states[i + 1])
  }

  // ----- the invariant -----

  /** Live buyer keys and users with a key are in one-to-one correspondence. */
  ghost predicate BuyerKeysOk(p: Platform) {
    && (forall u | u in p.users && p.users[u].apiKey.Some? ::
          p.users[u].apiKey.value in p.apiKeys && p.apiKeys[p.users[u].apiKey.value].BuyerKey?
          && p.apiKeys[p.users[u].apiKey.value].userId == u)
    && (forall k | k in p.apiKeys && p.apiKeys[k].BuyerKey? ::
          p.apiKeys[k].userId in p.users && p.users[p.apiKeys[k].userId].apiKey == Some(k))
  }

  ghost predicate SameMembers(a: seq<string>, b: seq<string>) {
    forall x :: x in a <==> x in b
  }

  /** The scopes of a buyer key are its user's roles. */
  ghost predicate ScopesOk(p: Platform) {
    && (forall u | u in p.users :: "buyer" in p.users[u].roles)
    && (forall k | k in p.apiKeys && p.apiKeys[k].BuyerKey? && p.apiKeys[k].userId in p.users ::
          SameMembers(p.apiKeys[k].scopes, p.users[p.apiKeys[k].userId].roles))
  }

  /** A seller's current key resolves to a record of that seller with the same list. */
  ghost predicate SellerKeysOk(p: Platform) {
    forall s | s in p.sellers ::
      && p.sellers[s].ownerUserId != ""
      && (p.sellers[s].apiKey.Some? ==>
            && p.sellers[s].apiKey.value in p.apiKeys
            && p.apiKeys[p.sellers[s].apiKey.value] == SellerKey(s, p.sellers[s].ownerUserId, p.sellers[s].subagentIds))
  }

  /** Catalog entries and sellers' lists name each other exactly. */
  ghost predicate IndexOk(sellers: map<string, Seller>, catalog: map<string, Item>) {
    && (forall s, x | s in sellers && x in sellers[s].subagentIds :: x in catalog && catalog[x].sellerId == s)
    && (forall x | x in catalog :: catalog[x].sellerId in sellers && x in sellers[catalog[x].sellerId].subagentIds)
  }

  function Bound(limit: int): int {
    if Quota(limit) < 1 then 1 else Quota(limit)
  }

  /** Lists have no duplicates and stay within the quota; enabled implies approved. */
  ghost predicate ListsOk(limit: int, sellers: map<string, Seller>, catalog: map<string, Item>) {
    && (forall s | s in sellers ::
          NoDup(sellers[s].subagentIds) && |sellers[s].subagentIds| <= Bound(limit)
          && (sellers[s].enabled ==> sellers[s].review == Approved))
    && (forall x | x in catalog :: catalog[x].enabled ==> catalog[x].review == Approved)
  }

  ghost predicate PlatformOk(limit: int, p: Platform) {
    BuyerKeysOk(p) && ScopesOk(p) && SellerKeysOk(p) && IndexOk(p.sellers, p.catalog)
    && ListsOk(limit, p.sellers, p.catalog)
  }

  ghost predicate Inv(limit: int, w: World) {
    PlatformOk(limit, w.p) && w.p.apiKeys.Keys <= w.drawn
  }

  /** One bootstrapped seller: approved, enabled, with one subagent. */
  datatype Boot = Boot(sellerId: string, subagentId: string, key: string, ownerUserId: string, profile: Profile)

  /** createPlatformState with two bootstrapped sellers. */
  function Bootstrapped(adminKey: string, a: Boot, b: Boot): Platform {
    Platform(map[],
             map[adminKey := AdminKey, a.key := SellerKey(a.sellerId, a.ownerUserId, [a.subagentId]),
                 b.key := SellerKey(b.sellerId, b.ownerUserId, [b.subagentId])],
             map[a.sellerId := Seller(a.ownerUserId, Some(a.key), [a.subagentId], a.profile, Approved, true),
                 b.sellerId := Seller(b.ownerUserId, Some(b.key), [b.subagentId], b.profile, Approved, true)],
             map[a.subagentId := Item(a.sellerId, a.profile.publicKeyPem, Approved, true),
                 b.subagentId := Item(b.sellerId, b.profile.publicKeyPem, Approved, true)])
  }

  lemma BootstrappedKeysIff(adminKey: string, a: Boot, b: Boot)
    requires a.ownerUserId != "" && b.ownerUserId != ""
    ensures var p := Bootstrapped(adminKey, a, b);
            BuyerKeysOk(p) && ScopesOk(p) && (SellerKeysOk(p) <==> a.sellerId == b.sellerId || a.key != b.key)
  {
    var p := Bootstrapped(adminKey, a, b);
    if a.sellerId != b.sellerId && a.key == b.key {
      assert a.sellerId in p.sellers && p.sellers[a.sellerId].apiKey == Some(b.key);
      assert p.apiKeys[b.key].sellerId == b.sellerId;
    }
  }

  lemma BootstrappedLists(limit: int, adminKey: string, a: Boot, b: Boot)
    ensures var p := Bootstrapped(adminKey, a, b); ListsOk(limit, p.sellers, p.catalog)
    ensures Bootstrapped(adminKey, a, b).apiKeys.Keys == {adminKey, a.key, b.key}
  {
  }

  lemma BootstrappedIndexIff(adminKey: string, a: Boot, b: Boot)
    ensures var p := Bootstrapped(adminKey, a, b);
            IndexOk(p.sellers, p.catalog) <==> (a.sellerId == b.sellerId <==> a.subagentId == b.subagentId)
  {
    var p := Bootstrapped(adminKey, a, b);
    assert b.subagentId in p.sellers[b.sellerId].subagentIds && p.catalog[b.subagentId].sellerId == b.sellerId;
    if a.sellerId != b.sellerId {
      assert a.subagentId in p.sellers[a.sellerId].subagentIds;
      assert a.subagentId == b.subagentId ==> p.catalog[a.subagentId].sellerId == b.sellerId;
    } else {
      assert a.subagentId in p.catalog && p.catalog[a.subagentId].sellerId == a.sellerId;
      assert p.sellers[a.sellerId].subagentIds == [b.subagentId];
    }
  }

  /**
   Runs can start from it exactly when the two sellers are distinct in everything - ids, keys and subagents - or are one
   seller with one subagent.
   */
  lemma BootstrappedOkIff(limit: int, adminKey: string, a: Boot, b: Boot)
    requires a.ownerUserId != "" && b.ownerUserId != ""
    ensures Inv(limit, World(Bootstrapped(adminKey, a, b), {adminKey, a.key, b.key})) <==>
            if a.sellerId == b.sellerId then a.subagentId == b.subagentId
            else a.key != b.key && a.subagentId != b.subagentId
  {
    BootstrappedKeysIff(adminKey, a, b);
    BootstrappedLists(limit, adminKey, a, b);
    BootstrappedIndexIff(adminKey, a, b);
    hide Bootstrapped, BuyerKeysOk, ScopesOk, SellerKeysOk, IndexOk, ListsOk;
  }

  // ----- users and their keys -----

  lemma RegisterScopes(p: Platform, contactEmail: string, userId: string, key: string)
    requires ScopesOk(p) && BuyerKeysOk(p) && userId !in p.users
    ensures ScopesOk(Register(p, contactEmail, userId, key))
  {
  }

  lemma RegisterBuyers(p: Platform, contactEmail: string, userId: string, key: string)
    requires BuyerKeysOk(p) && ScopesOk(p) && key !in p.apiKeys && userId !in p.users
    ensures var q := Register(p, contactEmail, userId, key); BuyerKeysOk(q) && ScopesOk(q)
  {
    RegisterScopes(p, contactEmail, userId, key);
    hide ScopesOk;
  }

  lemma RegisterSellers(p: Platform, contactEmail: string, userId: string, key: string)
    requires SellerKeysOk(p) && key !in p.apiKeys
    ensures SellerKeysOk(Register(p, contactEmail, userId, key))
  {
  }

  lemma RegisterOk(limit: int, p: Platform, contactEmail: string, userId: string, key: string)
    requires PlatformOk(limit, p) && key !in p.apiKeys && userId !in p.users
    ensures PlatformOk(limit, Register(p, contactEmail, userId, key))
  {
    RegisterBuyers(p, contactEmail, userId, key);
    RegisterSellers(p, contactEmail, userId, key);
    hide NoDup, IndexOk, ListsOk, BuyerKeysOk, ScopesOk, SellerKeysOk;
  }

  lemma GrantKeepsKinds(p: Platform, userId: string, role: string)
    ensures var q := GrantRole(p, userId, role);
            && q.apiKeys.Keys == p.apiKeys.Keys && q.users.Keys == p.users.Keys
            && q.sellers == p.sellers && q.catalog == p.catalog
            && (forall u | u in p.users :: q.users[u].apiKey == p.users[u].apiKey)
            && (forall k | k in p.apiKeys && !p.apiKeys[k].BuyerKey? :: q.apiKeys[k] == p.apiKeys[k])
            && (forall k | k in p.apiKeys && p.apiKeys[k].BuyerKey? ::
                q.apiKeys[k].BuyerKey? && q.apiKeys[k].userId == p.apiKeys[k].userId)
  {
    hide WithMember, NoDup;
  }

  lemma GrantKeepsScopes(p: Platform, userId: string, role: string)
    requires ScopesOk(p)
    ensures ScopesOk(GrantRole(p, userId, role))
  {
    if userId in p.users {
      var q := GrantRole(p, userId, role);
      hide NoDup;
      forall k | k in q.apiKeys && q.apiKeys[k].BuyerKey? && q.apiKeys[k].userId in q.users
        ensures SameMembers(q.apiKeys[k].scopes, q.users[q.apiKeys[k].userId].roles)
      {
        assert SameMembers(p.apiKeys[k].scopes, p.users[p.apiKeys[k].userId].roles);
      }
    }
  }

  lemma GrantKeepsKeys(p: Platform, q: Platform)
    requires BuyerKeysOk(p) && SellerKeysOk(p) && q.sellers == p.sellers
    requires q.apiKeys.Keys == p.apiKeys.Keys && q.users.Keys == p.users.Keys
    requires forall u | u in p.users :: q.users[u].apiKey == p.users[u].apiKey
    requires forall k | k in p.apiKeys && !p.apiKeys[k].BuyerKey? :: q.apiKeys[k] == p.apiKeys[k]
    requires forall k | k in p.apiKeys && p.apiKeys[k].BuyerKey? ::
               q.apiKeys[k].BuyerKey? && q.apiKeys[k].userId == p.apiKeys[k].userId
    ensures BuyerKeysOk(q) && SellerKeysOk(q)
  {
  }

  lemma GrantOk(limit: int, p: Platform, userId: string, role: string)
    requires PlatformOk(limit, p)
    ensures PlatformOk(limit, GrantRole(p, userId, role))
  {
    GrantKeepsKinds(p, userId, role);
    GrantKeepsScopes(p, userId, role);
    hide GrantRole, ScopesOk, NoDup, IndexOk, ListsOk, BuyerKeysOk, SellerKeysOk;
    GrantKeepsKeys(p, GrantRole(p, userId, role));
  }

  /** A seller record replaced by one with the same list and review state. */
  lemma SameListsOk(limit: int, sellers: map<string, Seller>, catalog: map<string, Item>, s: string, x: Seller)
    requires IndexOk(sellers, catalog) && ListsOk(limit, sellers, catalog) && s in sellers
    requires x.subagentIds == sellers[s].subagentIds && (x.enabled ==> x.review == Approved)
    ensures IndexOk(sellers[s := x], catalog) && ListsOk(limit, sellers[s := x], catalog)
  {
    hide NoDup;
  }

  lemma RevokeKeys(p: Platform, key: string)
    ensures Revoke(p, key).apiKeys == p.apiKeys - {key} && (key !in p.apiKeys ==> Revoke(p, key) == p)
  {
  }

  /** Who loses a reference to the key: its holder, if it was the holder's current one. */
  lemma RevokeSays(p: Platform, key: string)
    ensures var q := Revoke(p, key);
            && q.sellers.Keys == p.sellers.Keys
            && (forall s | s in p.sellers ::
                q.sellers[s] == p.sellers[s] || q.sellers[s] == p.sellers[s].(apiKey := None))
            && (key in p.apiKeys && p.apiKeys[key].SellerKey? ==>
                  forall s | s in p.sellers && s == p.apiKeys[key].sellerId :: q.sellers[s].apiKey != Some(key))
  {
  }

  lemma RevokeSaysUsers(p: Platform, key: string)
    ensures var q := Revoke(p, key);
            && q.users.Keys == p.users.Keys
            && (forall u | u in p.users ::
                  q.users[u] == if HeldBy(p, key, u) && p.users[u].apiKey == Some(key) then p.users[u].(apiKey := None)
                      else p.users[u])
  {
  }

  predicate HeldBy(p: Platform, key: string, u: string) {
    key in p.apiKeys && p.apiKeys[key].BuyerKey? && p.apiKeys[key].userId == u
  }

  lemma RevokeKeepsScopes(p: Platform, key: string)
    requires ScopesOk(p)
    ensures ScopesOk(Revoke(p, key))
  {
    RevokeKeys(p, key);
    RevokeSaysUsers(p, key);
    hide SameMembers, Revoke;
  }

  lemma RevokeKeepsBuyers(p: Platform, key: string)
    requires BuyerKeysOk(p) && ScopesOk(p)
    ensures BuyerKeysOk(Revoke(p, key)) && ScopesOk(Revoke(p, key))
  {
    RevokeKeepsScopes(p, key);
    RevokeKeys(p, key);
    RevokeSaysUsers(p, key);
    hide ScopesOk, Revoke;
  }

  lemma RevokeKeepsLists(limit: int, p: Platform, key: string)
    requires IndexOk(p.sellers, p.catalog) && ListsOk(limit, p.sellers, p.catalog)
    ensures var q := Revoke(p, key); IndexOk(q.sellers, q.catalog) && ListsOk(limit, q.sellers, q.catalog)
  {
    if key in p.apiKeys && p.apiKeys[key].SellerKey? && p.apiKeys[key].sellerId in p.sellers {
      var s := p.apiKeys[key].sellerId;
      assert p.sellers[s].enabled ==> p.sellers[s].review == Approved;
      hide ListsOk;
      SameListsOk(limit, p.sellers, p.catalog, s, p.sellers[s].(apiKey := None));
    }
    hide NoDup, IndexOk, ListsOk;
  }

  lemma RevokeKeepsSellerKeys(p: Platform, key: string)
    requires SellerKeysOk(p)
    ensures SellerKeysOk(Revoke(p, key))
  {
    RevokeKeys(p, key);
    RevokeSays(p, key);
    hide Revoke;
    var q := Revoke(p, key);
    if key in p.apiKeys {
      forall s | s in q.sellers && q.sellers[s].apiKey.Some?
        ensures q.sellers[s].apiKey.value != key && q.sellers[s] == p.sellers[s]
      {
        assert q.sellers[s] == p.sellers[s];
      }
    }
  }

  lemma RevokeKeepsSellers(limit: int, p: Platform, key: string)
    requires SellerKeysOk(p) && IndexOk(p.sellers, p.catalog) && ListsOk(limit, p.sellers, p.catalog)
    ensures var q := Revoke(p, key);
            SellerKeysOk(q) && IndexOk(q.sellers, q.catalog)
            && ListsOk(limit, q.sellers, q.catalog)
  {
    RevokeKeepsLists(limit, p, key);
    RevokeKeepsSellerKeys(p, key);
    hide NoDup, IndexOk, ListsOk, SellerKeysOk, Revoke;
  }

  /** Revocation: the key is gone, and so is the reference to it, if its holder had one. */
  lemma RevokeOk(limit: int, p: Platform, key: string)
    requires PlatformOk(limit, p)
    ensures PlatformOk(limit, Revoke(p, key)) && Revoke(p, key).apiKeys == p.apiKeys - {key}
  {
    RevokeKeepsBuyers(p, key);
    RevokeKeepsSellers(limit, p, key);
    RevokeKeys(p, key);
    hide NoDup, IndexOk, ListsOk, BuyerKeysOk, ScopesOk, SellerKeysOk, Revoke;
  }

  /** What is left of a platform when the user's current key, if any, is revoked. */
  function WithoutBuyerKey(p: Platform, userId: string): Platform
    requires userId in p.users
  {
    if p.users[userId].apiKey.Some? then Revoke(p, p.users[userId].apiKey.value) else p
  }

  lemma BuyerKeyGone(limit: int, p: Platform, userId: string)
    requires PlatformOk(limit, p) && userId in p.users
    ensures var q := WithoutBuyerKey(p, userId);
            && PlatformOk(limit, q) && q.apiKeys.Keys <= p.apiKeys.Keys && userId in q.users
            && q.users == p.users[userId := p.users[userId].(apiKey := None)]
  {
    if p.users[userId].apiKey.Some? {
      RevokeOk(limit, p, p.users[userId].apiKey.value);
    }
    hide ListsOk, IndexOk, NoDup, ScopesOk;
  }

  lemma NewBuyerKeyOk(limit: int, q: Platform, userId: string, key: string)
    requires PlatformOk(limit, q) && userId in q.users && q.users[userId].apiKey == None && key !in q.apiKeys
    ensures PlatformOk(limit, q.(users := q.users[userId := q.users[userId].(apiKey := Some(key))],
                                 apiKeys := q.apiKeys[key :=
                                                      BuyerKey(userId, ["buyer"] + Others(q.users[userId].roles))]))
  {
    hide NoDup, IndexOk, ListsOk, Without;
  }

  lemma RotateBuyerOk(limit: int, p: Platform, userId: string, key: string)
    requires PlatformOk(limit, p) && key !in p.apiKeys
    ensures PlatformOk(limit, RotateBuyer(p, userId, key))
    ensures RotateBuyer(p, userId, key).apiKeys.Keys <= p.apiKeys.Keys + {key}
  {
    if userId in p.users {
      BuyerKeyGone(limit, p, userId);
      NewBuyerKeyOk(limit, WithoutBuyerKey(p, userId), userId, key);
      hide PlatformOk, Revoke, Others;
    }
  }

  // ----- sellers, their keys and their lists -----

  function WithoutSellerKey(p: Platform, sellerId: string): Platform
    requires sellerId in p.sellers
  {
    if p.sellers[sellerId].apiKey.Some? then Revoke(p, p.sellers[sellerId].apiKey.value) else p
  }

  lemma SellerKeyGone(limit: int, p: Platform, sellerId: string)
    requires PlatformOk(limit, p) && sellerId in p.sellers
    ensures var q := WithoutSellerKey(p, sellerId);
            && PlatformOk(limit, q) && q.apiKeys.Keys <= p.apiKeys.Keys
            && q.sellers == p.sellers[sellerId := p.sellers[sellerId].(apiKey := None)]
  {
    if p.sellers[sellerId].apiKey.Some? {
      RevokeOk(limit, p, p.sellers[sellerId].apiKey.value);
    }
    hide ListsOk, IndexOk, NoDup, ScopesOk, BuyerKeysOk;
  }

  lemma NewSellerKeyOk(limit: int, q: Platform, s: string, key: string)
    requires PlatformOk(limit, q) && s in q.sellers && q.sellers[s].apiKey == None && key !in q.apiKeys
    ensures PlatformOk(limit, q.(sellers := q.sellers[s := q.sellers[s].(apiKey := Some(key))],
                                 apiKeys := q.apiKeys[key :=
                                                      SellerKey(s, q.sellers[s].ownerUserId,
                                                                q.sellers[s].subagentIds)]))
  {
    assert ListsOk(limit, q.sellers, q.catalog) && (q.sellers[s].enabled ==> q.sellers[s].review == Approved);
    SameListsOk(limit, q.sellers, q.catalog, s, q.sellers[s].(apiKey := Some(key)));
    hide NoDup, IndexOk, ListsOk;
  }

  lemma RotateSellerOk(limit: int, p: Platform, sellerId: string, key: string)
    requires PlatformOk(limit, p) && key !in p.apiKeys
    ensures PlatformOk(limit, RotateSeller(p, sellerId, key))
    ensures RotateSeller(p, sellerId, key).apiKeys.Keys <= p.apiKeys.Keys + {key}
  {
    if sellerId in p.sellers {
      SellerKeyGone(limit, p, sellerId);
      NewSellerKeyOk(limit, WithoutSellerKey(p, sellerId), sellerId, key);
      hide PlatformOk, Revoke;
    }
  }

  /** The list of the seller after an accepted submission. */
  lemma ListAfter(limit: int, p: Platform, b: Submission, caller: Option<Caller>, anyone: bool, fill: Fill)
    requires ListsOk(limit, p.sellers, p.catalog) && SubmissionRefusal(p, limit, b, caller, anyone) == None
    requires IndexOk(p.sellers, p.catalog)
    ensures var seller := SellerAfter(p, b, caller, fill);
            && NoDup(seller.subagentIds) && |seller.subagentIds| <= Bound(limit)
            && (seller.enabled ==> seller.review == Approved)
            && (forall x :: x in seller.subagentIds <==>
                  x == b.subagentId || (b.sellerId in p.sellers && x in p.sellers[b.sellerId].subagentIds))
    ensures b.subagentId in p.catalog ==> p.catalog[b.subagentId].sellerId == b.sellerId
  {
    hide Submitted, OwnerOf, CanManage;
    if b.sellerId in p.sellers {
      var ids := p.sellers[b.sellerId].subagentIds;
      assert NoDup(ids) && |ids| <= Bound(limit);
      hide NoDup;
    }
  }

  lemma AddedIndexOk(sellers: map<string, Seller>, catalog: map<string, Item>, s: string, seller: Seller, x: string,
                     item: Item)
    requires IndexOk(sellers, catalog) && item.sellerId == s && (x in catalog ==> catalog[x].sellerId == s)
    requires forall y :: y in seller.subagentIds <==> y == x || (s in sellers && y in sellers[s].subagentIds)
    ensures IndexOk(sellers[s := seller], catalog[x := item])
  {
  }

  lemma AddedListsOk(limit: int, sellers: map<string, Seller>, catalog: map<string, Item>, s: string, seller: Seller,
                     x: string, item: Item)
    requires ListsOk(limit, sellers, catalog) && !item.enabled
    requires NoDup(seller.subagentIds) && |seller.subagentIds| <= Bound(limit)
             && (seller.enabled ==> seller.review == Approved)
    ensures ListsOk(limit, sellers[s := seller], catalog[x := item])
  {
    hide NoDup, Bound;
  }

  /** An accepted submission puts the subagent on its seller's list and in the catalog, under that seller. */
  lemma FiledLists(limit: int, p: Platform, b: Submission, caller: Option<Caller>, anyone: bool, fill: Fill)
    requires IndexOk(p.sellers, p.catalog) && ListsOk(limit, p.sellers, p.catalog)
    requires SubmissionRefusal(p, limit, b, caller, anyone) == None
    ensures var q := Filed(p, b, caller, fill); IndexOk(q.sellers, q.catalog) && ListsOk(limit, q.sellers, q.catalog)
  {
    ListAfter(limit, p, b, caller, anyone, fill);
    var seller, item := SellerAfter(p, b, caller, fill), Item(b.sellerId, b.publicKeyPem, Pending, false);
    hide SellerAfter, NoDup, SubmissionRefusal, Bound, IndexOk, ListsOk, OwnerOf, SubmissionKey;
    AddedIndexOk(p.sellers, p.catalog, b.sellerId, seller, b.subagentId, item);
    AddedListsOk(limit, p.sellers, p.catalog, b.sellerId, seller, b.subagentId, item);
  }

  /** A seller's key record is replaced by one that says the same as the seller's new record. */
  lemma NewRecordOk(p: Platform, s: string, seller: Seller, key: string)
    requires SellerKeysOk(p) && seller.ownerUserId != ""
    requires key in p.apiKeys ==> p.apiKeys[key].SellerKey? && p.apiKeys[key].sellerId == s
    requires seller.apiKey.Some? ==> seller.apiKey.value == key
    ensures SellerKeysOk(p.(sellers := p.sellers[s := seller],
                            apiKeys := p.apiKeys[key := SellerKey(s, seller.ownerUserId, seller.subagentIds)]))
  {
  }

  lemma SameOutsideCatalog(p: Platform, q: Platform)
    requires SellerKeysOk(p) && q.sellers == p.sellers && q.apiKeys == p.apiKeys
    ensures SellerKeysOk(q)
  {
  }

  lemma FiledRecord(p: Platform, b: Submission, caller: Option<Caller>, fill: Fill)
    requires SellerKeysOk(p) && fill.key !in p.apiKeys && fill.ownerUserId != ""
    ensures var key, seller := SubmissionKey(p, b, fill), SellerAfter(p, b, caller, fill);
            && (key in p.apiKeys ==> p.apiKeys[key].SellerKey? && p.apiKeys[key].sellerId == b.sellerId)
            && seller.ownerUserId == OwnerOf(p, b, caller, fill) != ""
            && (seller.apiKey.Some? ==> seller.apiKey.value == key)
  {
    hide DefaultProfile, Submitted;
  }

  lemma FiledSellerKeys(p: Platform, b: Submission, caller: Option<Caller>, fill: Fill)
    requires SellerKeysOk(p) && fill.key !in p.apiKeys && fill.ownerUserId != ""
    ensures SellerKeysOk(Filed(p, b, caller, fill))
  {
    FiledRecord(p, b, caller, fill);
    var key, seller := SubmissionKey(p, b, fill), SellerAfter(p, b, caller, fill);
    hide SellerAfter, OwnerOf, SubmissionKey, SellerKeysOk;
    NewRecordOk(p, b.sellerId, seller, key);
    SameOutsideCatalog(p.(sellers := p.sellers[b.sellerId := seller],
                          apiKeys := p.apiKeys[key := SellerKey(b.sellerId, seller.ownerUserId, seller.subagentIds)]),
                       Filed(p, b, caller, fill));
  }

  /** Records of users are untouched, and so are buyer keys, when a key that no buyer has gets a seller's record. */
  lemma FrameBuyers(p: Platform, q: Platform, key: string, record: KeyRecord)
    requires q.users == p.users && q.apiKeys == p.apiKeys[key := record] && record.SellerKey?
    requires key in p.apiKeys ==> p.apiKeys[key].SellerKey?
    ensures BuyerKeysOk(p) ==> BuyerKeysOk(q)
    ensures ScopesOk(p) ==> ScopesOk(q)
  {
    hide SameMembers;
  }

  lemma SubmissionKeyIs(p: Platform, b: Submission, fill: Fill)
    requires SellerKeysOk(p)
    ensures var key := SubmissionKey(p, b, fill);
            if key in p.apiKeys && key != fill.key then p.apiKeys[key].SellerKey?
            else key == fill.key
  {
  }

  lemma FiledBuyerKeys(p: Platform, b: Submission, caller: Option<Caller>, fill: Fill)
    requires BuyerKeysOk(p) && ScopesOk(p) && SellerKeysOk(p) && fill.key !in p.apiKeys
    ensures BuyerKeysOk(Filed(p, b, caller, fill)) && ScopesOk(Filed(p, b, caller, fill))
    ensures Filed(p, b, caller, fill).apiKeys.Keys <= p.apiKeys.Keys + {fill.key}
  {
    SubmissionKeyIs(p, b, fill);
    var key := SubmissionKey(p, b, fill);
    hide SellerAfter, OwnerOf, SubmissionKey, SellerKeysOk, BuyerKeysOk, ScopesOk;
    FrameBuyers(p, Filed(p, b, caller, fill), key, Filed(p, b, caller, fill).apiKeys[key]);
  }

  lemma SubmitOk(limit: int, p: Platform, b: Submission, caller: Option<Caller>, anyone: bool, fill: Fill)
    requires PlatformOk(limit, p) && fill.key !in p.apiKeys && fill.ownerUserId != ""
    ensures PlatformOk(limit, Submit(p, limit, b, caller, anyone, fill))
    ensures Submit(p, limit, b, caller, anyone, fill).apiKeys.Keys <= p.apiKeys.Keys + {fill.key}
  {
    if SubmissionRefusal(p, limit, b, caller, anyone) == None {
      FiledLists(limit, p, b, caller, anyone, fill);
      FiledSellerKeys(p, b, caller, fill);
      FiledBuyerKeys(p, b, caller, fill);
      hide SubmissionRefusal, Filed, BuyerKeysOk, ScopesOk, SellerKeysOk, IndexOk, ListsOk;
      GrantOk(limit, Filed(p, b, caller, fill), UserIdOf(caller), "seller");
      GrantKeepsKinds(Filed(p, b, caller, fill), UserIdOf(caller), "seller");
      hide GrantRole, PlatformOk;
    }
  }

  // ----- reviews -----

  lemma SameKeysOk(p: Platform, s: string, x: Seller)
    requires BuyerKeysOk(p) && ScopesOk(p) && SellerKeysOk(p) && s in p.sellers
    requires x.ownerUserId == p.sellers[s].ownerUserId && x.apiKey == p.sellers[s].apiKey
             && x.subagentIds == p.sellers[s].subagentIds
    ensures var q := p.(sellers := p.sellers[s := x]); BuyerKeysOk(q) && ScopesOk(q) && SellerKeysOk(q)
  {
    hide SameMembers;
  }

  lemma SameItemOk(limit: int, sellers: map<string, Seller>, catalog: map<string, Item>, id: string, x: Item)
    requires IndexOk(sellers, catalog) && ListsOk(limit, sellers, catalog) && id in catalog
    requires x.sellerId == catalog[id].sellerId && (x.enabled ==> x.review == Approved)
    ensures IndexOk(sellers, catalog[id := x]) && ListsOk(limit, sellers, catalog[id := x])
  {
    hide NoDup, Bound;
  }

  lemma ReviewedIsApproved(d: Decision, review: Review, enabled: bool)
    requires enabled ==> review == Approved
    ensures var (r, on) := Reviewed(d, review, enabled); on ==> r == Approved
  {
  }

  lemma ReviewSellerOk(limit: int, p: Platform, id: string, d: Decision)
    requires PlatformOk(limit, p)
    ensures PlatformOk(limit, ReviewSeller(p, id, d)) && ReviewSeller(p, id, d).apiKeys == p.apiKeys
  {
    if id in p.sellers {
      assert ListsOk(limit, p.sellers, p.catalog) && (p.sellers[id].enabled ==> p.sellers[id].review == Approved);
      ReviewedIsApproved(d, p.sellers[id].review, p.sellers[id].enabled);
      var (review, enabled) := Reviewed(d, p.sellers[id].review, p.sellers[id].enabled);
      hide NoDup, BuyerKeysOk, ScopesOk, SellerKeysOk, IndexOk, ListsOk, Reviewed;
      SameListsOk(limit, p.sellers, p.catalog, id, p.sellers[id].(review := review, enabled := enabled));
      SameKeysOk(p, id, p.sellers[id].(review := review, enabled := enabled));
    }
  }

  lemma ReviewItemOk(limit: int, p: Platform, id: string, d: Decision)
    requires PlatformOk(limit, p)
    ensures PlatformOk(limit, ReviewItem(p, id, d)) && ReviewItem(p, id, d).apiKeys == p.apiKeys
  {
    if id in p.catalog {
      assert ListsOk(limit, p.sellers, p.catalog) && (p.catalog[id].enabled ==> p.catalog[id].review == Approved);
      ReviewedIsApproved(d, p.catalog[id].review, p.catalog[id].enabled);
      var (review, enabled) := Reviewed(d, p.catalog[id].review, p.catalog[id].enabled);
      FrameKeys(p, ReviewItem(p, id, d));
      hide NoDup, BuyerKeysOk, ScopesOk, SellerKeysOk, IndexOk, ListsOk, Reviewed;
      SameItemOk(limit, p.sellers, p.catalog, id, p.catalog[id].(review := review, enabled := enabled));
    }
  }

  lemma FrameKeys(p: Platform, q: Platform)
    requires q.users == p.users && q.apiKeys == p.apiKeys && q.sellers == p.sellers
    ensures BuyerKeysOk(p) ==> BuyerKeysOk(q)
    ensures ScopesOk(p) ==> ScopesOk(q)
    ensures SellerKeysOk(p) ==> SellerKeysOk(q)
  {
  }

  // ----- every run -----

  lemma StepKeepsInv(limit: int, w: World, e: Event)
    requires Inv(limit, w) && Fresh(w, e)
    ensures Inv(limit, World(Apply(limit, w.p, e), w.drawn + Drawn(e)))
    ensures Apply(limit, w.p, e).apiKeys.Keys <= w.p.apiKeys.Keys + Drawn(e)
  {
    hide PlatformOk;
    match e
    case RegisterUser(contactEmail, userId, key) => RegisterOk(limit, w.p, contactEmail, userId, key);
    case Grant(userId, role) =>
      GrantOk(limit, w.p, userId, role);
      GrantKeepsKinds(w.p, userId, role);
      hide GrantRole;
    case RotateBuyerKey(userId, key) => RotateBuyerOk(limit, w.p, userId, key); hide RotateBuyer;
    case RotateSellerKey(sellerId, key) => RotateSellerOk(limit, w.p, sellerId, key); hide RotateSeller;
    case RevokeKey(key) => RevokeOk(limit, w.p, key); hide Revoke;
    case SubmitSubagent(b, caller, anyone, fill) => SubmitOk(limit, w.p, b, caller, anyone, fill); hide Submit;
    case DecideOnSeller(sellerId, d) => ReviewSellerOk(limit, w.p, sellerId, d); hide ReviewSeller;
    case DecideOnItem(subagentId, d) => ReviewItemOk(limit, w.p, subagentId, d); hide ReviewItem;
  }

  lemma {:induction false} RunKeepsInv(limit: int, states: seq<World>, events: seq<Event>, i: nat)
    requires IsRun(limit, states, events) && i < |states|
    ensures Inv(limit, states[i])
    decreases i
  {
    if i > 0 {
      hide Inv, Apply;
      RunKeepsInv(limit, states, events, i - 1);
      assert Next(limit, states[i - 1], events[i - 1], states[i]);
      StepKeepsInv(limit, states[i - 1], events[i - 1]);
    }
  }

  /** The ownership index, after any sequence of submissions, reviews, rotations and revocations. */
  lemma OwnershipIndex(limit: int, states: seq<World>, events: seq<Event>, i: nat)
    requires IsRun(limit, states, events) && i < |states|
    ensures var p := states[i].p;
            && (forall x, s | s in p.sellers ::
                x in p.sellers[s].subagentIds <==> x in p.catalog && p.catalog[x].sellerId == s)
            && (forall x | x in p.catalog :: p.catalog[x].sellerId in p.sellers)
            && (forall s, t | s in p.sellers && t in p.sellers && s != t ::
                  SeqToSet(p.sellers[s].subagentIds) !! SeqToSet(p.sellers[t].subagentIds))
            && (forall s | s in p.sellers ::
                NoDup(p.sellers[s].subagentIds) && |p.sellers[s].subagentIds| <= Bound(limit))
            && (forall s | s in p.sellers && p.sellers[s].apiKey.Some? ::
                  p.sellers[s].apiKey.value in p.apiKeys
                  && p.apiKeys[p.sellers[s].apiKey.value] ==
                  SellerKey(s, p.sellers[s].ownerUserId, p.sellers[s].subagentIds))
            && (forall s | s in p.sellers && p.sellers[s].enabled :: p.sellers[s].review == Approved)
            && (forall x | x in p.catalog && p.catalog[x].enabled :: p.catalog[x].review == Approved)
  {
    RunKeepsInv(limit, states, events, i);
    ListsDisjoint(states[i].p.sellers, states[i].p.catalog);
    hide IsRun, NoDup, BuyerKeysOk, ScopesOk;
  }

  lemma ListsDisjoint(sellers: map<string, Seller>, catalog: map<string, Item>)
    requires IndexOk(sellers, catalog)
    ensures forall s, t | s in sellers && t in sellers && s != t ::
              SeqToSet(sellers[s].subagentIds) !! SeqToSet(sellers[t].subagentIds)
  {
    forall s, t | s in sellers && t in sellers && s != t
      ensures SeqToSet(sellers[s].subagentIds) !! SeqToSet(sellers[t].subagentIds)
    {
      assert forall x | x in SeqToSet(sellers[s].subagentIds) :: catalog[x].sellerId == s;
      assert forall x | x in SeqToSet(sellers[t].subagentIds) :: catalog[x].sellerId == t;
    }
  }

  /** A user's current key and the buyer keys that resolve correspond one to one; scopes are roles. */
  lemma BuyerCredentials(limit: int, states: seq<World>, events: seq<Event>, i: nat, u: string, k: string)
    requires IsRun(limit, states, events) && i < |states|
    ensures var p := states[i].p;
            && (u in p.users && p.users[u].apiKey == Some(k) <==>
                k in p.apiKeys && p.apiKeys[k].BuyerKey? && p.apiKeys[k].userId == u)
            && (u in p.users && p.users[u].apiKey == Some(k) ==> SameMembers(p.apiKeys[k].scopes, p.users[u].roles))
  {
    RunKeepsInv(limit, states, events, i);
    hide IsRun, NoDup, IndexOk, ListsOk, SellerKeysOk;
  }

  lemma StepOf(limit: int, states: seq<World>, events: seq<Event>, i: nat)
    requires IsRun(limit, states, events) && i + 1 < |states|
    ensures i < |events| && Next(limit, states[i], events[i], states[i + 1])
  {
  }

  lemma KeyStaysRetired(limit: int, w: World, e: Event, w': World, k: string)
    requires Inv(limit, w) && Next(limit, w, e, w') && k in w.drawn && k !in w.p.apiKeys
    ensures k !in w'.p.apiKeys
  {
    hide Inv, Apply;
    StepKeepsInv(limit, w, e);
    FreshKeys(w, e);
    hide Fresh, Drawn;
  }

  /** A key that has stopped resolving, by rotation or revocation, never resolves again. */
  lemma {:induction false} RetiredKeysStayRetired(limit: int, states: seq<World>, events: seq<Event>, i: nat, j: nat,
                                                  l: nat, k: string)
    requires IsRun(limit, states, events) && i <= j <= l < |states|
    requires k in states[i].p.apiKeys && k !in states[j].p.apiKeys
    ensures k !in states[l].p.apiKeys
    decreases l
  {
    hide *;
    if j < l {
      StepOf(limit, states, events, l - 1);
      RetiredKeysStayRetired(limit, states, events, i, j, l - 1, k);
      RunKeepsInv(limit, states, events, l - 1);
      DrawnStays(limit, states, events, i, l - 1, k);
      KeyStaysRetired(limit, states[l - 1], events[l - 1], states[l], k);
    }
  }

  lemma FreshKeys(w: World, e: Event)
    requires Fresh(w, e)
    ensures Drawn(e) !! w.drawn
  {
  }

  lemma {:induction false} DrawnStays(limit: int, states: seq<World>, events: seq<Event>, i: nat, j: nat, k: string)
    requires IsRun(limit, states, events) && i <= j < |states| && k in states[i].p.apiKeys
    ensures k in states[j].drawn
    decreases j
  {
    if i == j {
      RunKeepsInv(limit, states, events, i);
    } else {
      DrawnStays(limit, states, events, i, j - 1, k);
      assert Next(limit, states[j - 1], events[j - 1], states[j]);
    }
    hide Apply, PlatformOk;
  }

  // ----- where it stops -----

  /** The key an accepted submission hands out is the seller's current key unless that had been revoked. */
  lemma SubmittedKeyIsCurrentIff(limit: int, p: Platform, b: Submission, caller: Option<Caller>, anyone: bool,
                                 fill: Fill)
    requires PlatformOk(limit, p) && fill.key !in p.apiKeys && SubmissionRefusal(p, limit, b, caller, anyone) == None
    ensures var q := Submit(p, limit, b, caller, anyone, fill);
            && SubmissionKey(p, b, fill) in q.apiKeys
            && (q.sellers[b.sellerId].apiKey == Some(SubmissionKey(p, b, fill)) <==>
                b.sellerId !in p.sellers || p.sellers[b.sellerId].apiKey.Some?)
  {
    GrantKeepsKinds(Filed(p, b, caller, fill), UserIdOf(caller), "seller");
    hide GrantRole, PlatformOk, SubmissionRefusal;
  }

  /** What a buyer can be routed to was approved: both the entry and its seller. */
  lemma VisibleMeansApproved(limit: int, states: seq<World>, events: seq<Event>, i: nat, x: string)
    requires IsRun(limit, states, events) && i < |states| && x in states[i].p.catalog
    ensures var p := states[i].p; var item := p.catalog[x];
            && (Visible(p, x) <==> item.enabled && item.sellerId in p.sellers && p.sellers[item.sellerId].enabled)
            && (Visible(p, x) ==> item.review == Approved && p.sellers[item.sellerId].review == Approved)
  {
    RunKeepsInv(limit, states, events, i);
    hide IsRun;
  }
}
