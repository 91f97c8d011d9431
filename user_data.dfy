/** The user-profile logic that market_engine/modules/Models/MarketUser.py and the `MarketUser`
    class of market_engine/modules/MarketData.py share word for word: parsing a user's orders,
    appending unseen reviews, and copying profile keys onto the object's attributes. */
module UserData {
  import opened Prelude
  import opened Text
  import opened Dicts

  const AssetUrl := "https://warframe.market/static/assets"
  const ProfileBaseUrl := "https://warframe.market/profile"

  // ---------------------------------------------------------------------------
  // Orders of a user profile

  /** An order of the profile-orders endpoint. */
  datatype RawUserOrder = RawUserOrder(itemName: string, itemUrlName: string, itemId: string,
                                       lastUpdate: string, quantity: int, platinum: int,
                                       subtype: Option<string>, modRank: Option<int>)

  /** An entry of `MarketUser.orders['sell']` or `['buy']`. */
  datatype UserOrder = UserOrder(item: string, itemUrlName: string, itemId: string, lastUpdate: string,
                                 quantity: int, price: int, subtype: Option<string>)

  /** The profile-orders payload: `sell_orders` and `buy_orders`, either possibly missing. */
  datatype UserOrdersPayload = UserOrdersPayload(sellOrders: Option<seq<RawUserOrder>>, buyOrders: Option<seq<RawUserOrder>>)

  /** A parsed user order; a mod rank `n` becomes the subtype "Rn", over any subtype the order has. */
  function ParseUserOrder(o: RawUserOrder): (r: UserOrder)
    ensures o.modRank.None? ==> r.subtype == o.subtype
    ensures o.modRank.Some? ==> r.subtype.Some? && |r.subtype.value| >= 1 && r.subtype.value[0] == 'R'
                                && r.subtype.value[1..] == IntToString(o.modRank.value)
    ensures r.price == o.platinum && r.item == o.itemName && r.itemId == o.itemId
  {
    var subtype := if o.modRank.Some? then Some("R" + IntToString(o.modRank.value)) else o.subtype;
    UserOrder(o.itemName, o.itemUrlName, o.itemId, o.lastUpdate, o.quantity, o.platinum, subtype)
  }

  /** The orders parsed one by one, in input order. */
  function ParseAll(orders: seq<RawUserOrder>): (r: seq<UserOrder>)
    ensures |r| == |orders|
    ensures forall i :: 0 <= i < |orders| ==> r[i] == ParseUserOrder(orders[i])
  {
    if orders == [] then [] else ParseAll(orders[..|orders| - 1]) + [ParseUserOrder(orders[|orders| - 1])]
  }

  /** The loop over one side of the payload: each order is appended, unsorted. */
  method AppendParsed(side: seq<UserOrder>, orders: seq<RawUserOrder>) returns (r: seq<UserOrder>)
    ensures r == side + ParseAll(orders)
  {
    r := side;
    var i := 0;
    while i < |orders|
      invariant 0 <= i <= |orders|
      invariant r == side + ParseAll(orders[..i])
    {
      r := r + [ParseUserOrder(orders[i])];
      assert orders[..i + 1][..i] == orders[..i];
      i := i + 1;
    }
    assert orders[..|orders|] == orders;
  }

  // ---------------------------------------------------------------------------
  // Reviews

  /** A review as the review endpoint gives it. */
  datatype RawReview = RawReview(fromName: string, fromId: string, fromAvatar: Option<string>,
                                 fromRegion: string, text: string, date: string)

  /** An entry of `MarketUser.reviews`. */
  datatype Review = Review(user: string, userId: string, userAvatar: Option<string>,
                           userRegion: string, text: string, date: string)

  function ParseReview(r: RawReview): Review {
    Review(r.fromName, r.fromId, r.fromAvatar, r.fromRegion, r.text, r.date)
  }

  /** The reviews after appending, in order, each parsed review not already present. */
  function Unseen(existing: seq<Review>, reviews: seq<RawReview>): seq<Review> {
    if reviews == [] then existing
    else
      var r := Unseen(existing, reviews[..|reviews| - 1]);
      var p := ParseReview(reviews[|reviews| - 1]);
      if p in r then r else r + [p]
  }

  /** `parse_reviews`'s loop. */
  method AppendUnseen(existing: seq<Review>, reviews: seq<RawReview>) returns (r: seq<Review>)
    ensures r == Unseen(existing, reviews)
  {
    r := existing;
    var i := 0;
    while i < |reviews|
      invariant 0 <= i <= |reviews|
      invariant r == Unseen(existing, reviews[..i])
    {
      var parsed := ParseReview(reviews[i]);
      if parsed !in r {
        r := r + [parsed];
      }
      assert reviews[..i + 1][..i] == reviews[..i];
      i := i + 1;
    }
    assert reviews[..|reviews|] == reviews;
  }

  predicate NoDuplicates<T(==)>(s: seq<T>) {
    forall i, j :: 0 <= i < j < |s| ==> s[i] != s[j]
  }

  /** The existing reviews stay first and in place; the result holds exactly the existing and the
      new reviews; no review is added twice. */
  lemma {:induction false} UnseenSpec(existing: seq<Review>, reviews: seq<RawReview>)
    ensures |existing| <= |Unseen(existing, reviews)|
    ensures Unseen(existing, reviews)[..|existing|] == existing
    ensures forall v :: v in Unseen(existing, reviews) <==> v in existing || exists i :: 0 <= i < |reviews| && v == ParseReview(reviews[i])
    ensures NoDuplicates(existing) ==> NoDuplicates(Unseen(existing, reviews))
  {
    if reviews != [] {
      var init := reviews[..|reviews| - 1];
      UnseenSpec(existing, init);
      var r := Unseen(existing, init);
      var p := ParseReview(reviews[|reviews| - 1]);
      forall v ensures v in Unseen(existing, reviews) <==> v in existing || exists i :: 0 <= i < |reviews| && v == ParseReview(reviews[i]) {
        if exists i :: 0 <= i < |init| && v == ParseReview(init[i]) {
          var i :| 0 <= i < |init| && v == ParseReview(init[i]);
          assert v == ParseReview(reviews[i]);
        }
        if exists i :: 0 <= i < |reviews| && v == ParseReview(reviews[i]) {
          var i :| 0 <= i < |reviews| && v == ParseReview(reviews[i]);
          if i < |init| {
            assert v == ParseReview(init[i]);
          }
        }
      }
      if p !in r {
        assert (r + [p])[..|existing|] == r[..|existing|];
      }
    }
  }

  /** Parsing the same reviews twice changes nothing the second time. */
  lemma {:induction false} UnseenIdempotent(existing: seq<Review>, reviews: seq<RawReview>)
    ensures Unseen(Unseen(existing, reviews), reviews) == Unseen(existing, reviews)
  {
    var once := Unseen(existing, reviews);
    UnseenSpec(existing, reviews);
    UnseenAllPresent(once, reviews);
  }

  /** Reviews that are all present already add nothing. */
  lemma {:induction false} UnseenAllPresent(existing: seq<Review>, reviews: seq<RawReview>)
    requires forall i :: 0 <= i < |reviews| ==> ParseReview(reviews[i]) in existing
    ensures Unseen(existing, reviews) == existing
  {
    if reviews != [] {
      UnseenAllPresent(existing, reviews[..|reviews| - 1]);
    }
  }

  // ---------------------------------------------------------------------------
  // Profile attributes

  /** The attributes a fresh `MarketUser` has that hold profile values, all but the identity
      ones set to None. */
  function InitialAttributes(userId: string, username: string): (a: Dict<string, Json>)
    ensures DistinctKeys(a)
  {
    [("user_id", JStr(userId)), ("username", JStr(username)),
     ("profile_url", JStr(ProfileBaseUrl + "/" + username)),
     ("last_seen", JNull), ("avatar", JNull), ("avatar_url", JNull), ("locale", JNull),
     ("background", JNull), ("about", JNull), ("reputation", JNull), ("platform", JNull),
     ("banned", JNull), ("status", JNull), ("region", JNull)]
  }

  /** `str(value)` inside an f-string, for the scalar JSON values. */
  function Show(j: Json): string {
    match j
    case JNull => "None"
    case JBool(b) => if b then "True" else "False"
    case JInt(i) => IntToString(i)
    case JStr(s) => s
    case JArr(_) => "[...]"
    case JObj(_) => "{...}"
  }

  /** The attributes after `setattr` for every profile key that names an attribute. */
  function Copied(attrs: Dict<string, Json>, profile: seq<(string, Json)>): Dict<string, Json> {
    if profile == [] then attrs
    else
      var a := Copied(attrs, profile[..|profile| - 1]);
      var (key, value) := profile[|profile| - 1];
      if key in KeySet(a) then Put(a, key, value) else a
  }

  /** The `avatar_url` step after the copy. */
  function WithAvatarUrl(attrs: Dict<string, Json>): Dict<string, Json> {
    var avatar := Lookup(attrs, "avatar");
    if avatar.Some? && avatar.value != JNull then Put(attrs, "avatar_url", JStr(AssetUrl + "/" + Show(avatar.value)))
    else attrs
  }

  /** The copy's loop. */
  method CopyAttributes(attrs: Dict<string, Json>, profile: seq<(string, Json)>) returns (r: Dict<string, Json>)
    ensures r == Copied(attrs, profile)
  {
    r := attrs;
    var i := 0;
    while i < |profile|
      invariant 0 <= i <= |profile|
      invariant r == Copied(attrs, profile[..i])
    {
      var (key, value) := profile[i];
      if key in KeySet(r) {
        r := Put(r, key, value);
      }
      assert profile[..i + 1][..i] == profile[..i];
      i := i + 1;
    }
    assert profile[..|profile|] == profile;
  }

  /** The copy adds no attribute; an attribute takes the value of the last profile entry for its
      name, and keeps its value when the profile does not name it. */
  lemma {:induction false} CopiedSpec(attrs: Dict<string, Json>, profile: seq<(string, Json)>, key: string)
    ensures KeySet(Copied(attrs, profile)) == KeySet(attrs)
    ensures DistinctKeys(attrs) ==> DistinctKeys(Copied(attrs, profile))
    ensures key in KeySet(attrs) ==>
      Lookup(Copied(attrs, profile), key) == if LastValue(profile, key).Some? then LastValue(profile, key) else Lookup(attrs, key)
    ensures key !in KeySet(attrs) ==> Lookup(Copied(attrs, profile), key).None?
  {
    if profile != [] {
      CopiedSpec(attrs, profile[..|profile| - 1], key);
      var a := Copied(attrs, profile[..|profile| - 1]);
      if DistinctKeys(attrs) {
        PutDistinct(a, profile[|profile| - 1].0, profile[|profile| - 1].1);
      }
    }
  }

  /** `avatar_url` is the asset URL of the avatar exactly when the avatar is not None; otherwise it
      is whatever the copy left. */
  lemma WithAvatarUrlSpec(attrs: Dict<string, Json>)
    requires "avatar" in KeySet(attrs)
    ensures KeySet(WithAvatarUrl(attrs)) == KeySet(attrs) + (if Lookup(attrs, "avatar") != Some(JNull) then {"avatar_url"} else {})
    ensures Lookup(attrs, "avatar") != Some(JNull) ==>
      Lookup(WithAvatarUrl(attrs), "avatar_url") == Some(JStr(AssetUrl + "/" + Show(Lookup(attrs, "avatar").value)))
    ensures Lookup(attrs, "avatar") == Some(JNull) ==> WithAvatarUrl(attrs) == attrs
    ensures forall k :: k != "avatar_url" ==> Lookup(WithAvatarUrl(attrs), k) == Lookup(attrs, k)
  {
  }

  /** The fetch gives Python's None: no response at all, or a body that decodes to `null`. */
  predicate NoUserData(userData: Option<Json>) {
    userData.None? || userData.value == JNull
  }

  /** `user_data['payload']['profile']` on a decoded JSON response: a missing key raises KeyError,
      subscripting a non-object raises TypeError. */
  function ProfileOf(userData: Json): (r: Result<Json>)
    ensures r.Ok? ==> userData.JObj? && Lookup(userData.fields, "payload").Some?
                      && Lookup(userData.fields, "payload").value.JObj?
                      && Lookup(Lookup(userData.fields, "payload").value.fields, "profile") == Some(r.value)
  {
    match userData
    case JObj(fields) =>
      (match Lookup(fields, "payload")
       case None => Err("KeyError")
       case Some(payload) =>
         match payload
         case JObj(pf) =>
           (match Lookup(pf, "profile")
            case None => Err("KeyError")
            case Some(profile) => Ok(profile))
         case _ => Err("TypeError"))
    case _ => Err("TypeError")
  }
}
