/** market_engine/modules/Models/MarketUser.py: the stand-alone `MarketUser`. Unlike the class of
    the same name in market_engine/modules/MarketData.py, fetching the profile swallows a missing
    key and hands the profile back; copying it onto the object is a separate step. */
module ModelsMarketUser {
  import opened Prelude
  import opened Dicts
  import opened UserData

  /** `fetch_user_data` after the fetch: no response, or a `null` body, gives None; a missing
      `payload` or `profile` key is caught and gives None, and so does a `null` profile, which is
      Python's None; subscripting a non-object still raises TypeError. */
  function FetchUserData(userData: Option<Json>): (r: Result<Option<Json>>)
    ensures NoUserData(userData) ==> r == Ok(None)
    ensures !NoUserData(userData) && ProfileOf(userData.value).Ok? && ProfileOf(userData.value).value != JNull ==>
      r == Ok(Some(ProfileOf(userData.value).value))
    ensures r.Err? <==> !NoUserData(userData) && ProfileOf(userData.value) == Err("TypeError")
    ensures r.Err? ==> r.error == "TypeError"
    ensures r == Ok(None) <==>
      NoUserData(userData) || ProfileOf(userData.value) == Err("KeyError") || ProfileOf(userData.value) == Ok(JNull)
    ensures r.Ok? && r.value.Some? ==> r.value.value != JNull
  {
    if NoUserData(userData) then Ok(None)
    else
      match ProfileOf(userData.value)
      case Ok(profile) => if profile == JNull then Ok(None) else Ok(Some(profile))
      case Err(e) => if e == "KeyError" then Ok(None) else Err(e)
  }

  class MarketUser {
    /** The profile attributes, by name. */
    var attrs: Dict<string, Json>
    /** `self.orders['buy']` and `['sell']`. */
    var buy: seq<UserOrder>
    var sell: seq<UserOrder>
    var reviews: seq<Review>

    constructor(userId: string, username: string)
      ensures attrs == InitialAttributes(userId, username)
      ensures buy == [] && sell == [] && reviews == []
    {
      attrs := InitialAttributes(userId, username);
      buy, sell, reviews := [], [], [];
    }

    /** `set_user_data`: the profile's keys that name attributes are copied, then `avatar_url` is
        derived from a non-None avatar. A profile that is not an object raises AttributeError at
        `.items()` and changes nothing. */
    method SetUserData(profile: Json) returns (r: Result<()>)
      modifies this
      ensures buy == old(buy) && sell == old(sell) && reviews == old(reviews)
      ensures !profile.JObj? ==> r == Err("AttributeError") && attrs == old(attrs)
      ensures profile.JObj? ==> r == Ok(()) && attrs == WithAvatarUrl(Copied(old(attrs), profile.fields))
    {
      if !profile.JObj? {
        return Err("AttributeError");
      }
      var copied := CopyAttributes(attrs, profile.fields);
      attrs := WithAvatarUrl(copied);
      r := Ok(());
    }

    /** `parse_orders`: both sides are replaced; `sell_orders` fill `sell`, then `buy_orders` fill
        `buy`, in input order. A missing list raises KeyError after the lists before it were
        added. */
    method ParseOrders(orders: UserOrdersPayload) returns (r: Result<()>)
      modifies this
      ensures attrs == old(attrs) && reviews == old(reviews)
      ensures orders.sellOrders.None? ==> r == Err("KeyError") && sell == [] && buy == []
      ensures orders.sellOrders.Some? ==> sell == ParseAll(orders.sellOrders.value)
      ensures orders.sellOrders.Some? && orders.buyOrders.None? ==> r == Err("KeyError") && buy == []
      ensures orders.sellOrders.Some? && orders.buyOrders.Some? ==> r == Ok(()) && buy == ParseAll(orders.buyOrders.value)
    {
      buy, sell := [], [];
      if orders.sellOrders.None? {
        return Err("KeyError");
      }
      sell := AppendParsed(sell, orders.sellOrders.value);
      if orders.buyOrders.None? {
        return Err("KeyError");
      }
      buy := AppendParsed(buy, orders.buyOrders.value);
      r := Ok(());
    }

    /** `parse_reviews`: each review not already present is appended. */
    method ParseReviews(reviews: seq<RawReview>)
      modifies this
      ensures this.reviews == Unseen(old(this.reviews), reviews)
      ensures attrs == old(attrs) && buy == old(buy) && sell == old(sell)
    {
      this.reviews := AppendUnseen(this.reviews, reviews);
    }
  }

  /** The profile step of `create`: with `fetchUserData`, the fetched profile, when it is not
      None, is set on the new object; a TypeError from the fetch propagates. A `null` profile is
      None and is skipped. */
  method Create(userId: string, username: string, fetchUserData: bool, userData: Option<Json>)
    returns (user: MarketUser, r: Result<()>)
    ensures fresh(user)
    ensures user.buy == [] && user.sell == [] && user.reviews == []
    ensures !fetchUserData ==> r == Ok(()) && user.attrs == InitialAttributes(userId, username)
    ensures fetchUserData && FetchUserData(userData).Err? ==> r == Err("TypeError")
    ensures fetchUserData && FetchUserData(userData) == Ok(None) ==>
      r == Ok(()) && user.attrs == InitialAttributes(userId, username)
    ensures fetchUserData && !NoUserData(userData) && ProfileOf(userData.value) == Ok(JNull) ==>
      r == Ok(()) && user.attrs == InitialAttributes(userId, username)
    ensures fetchUserData && FetchUserData(userData).Ok? && FetchUserData(userData).value.Some? ==>
      var profile := FetchUserData(userData).value.value;
      (profile.JObj? ==> r == Ok(()) && user.attrs == WithAvatarUrl(Copied(InitialAttributes(userId, username), profile.fields)))
      && (!profile.JObj? ==> r == Err("AttributeError"))
  {
    user := new MarketUser(userId, username);
    r := Ok(());
    if fetchUserData {
      var profile := FetchUserData(userData);
      if profile.Err? {
        return user, Err(profile.error);
      }
      if profile.value.Some? {
        r := user.SetUserData(profile.value.value);
      }
    }
  }
}
