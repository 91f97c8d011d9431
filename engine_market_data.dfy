/** market_engine/modules/MarketData.py: the catalog of `MarketDatabase`, the resolver with its
    fixed word aliases, and the order handling of `MarketItem` and `MarketUser`. */
module EngineMarketData {
  import opened Prelude
  import opened Text
  import opened Dicts
  import opened Fuzzy
  import opened Orders
  import opened UserData
  import opened Grouping

  // ---------------------------------------------------------------------------
  // The catalog

  /** A row of the catalog query: an item's columns and one of its aliases, or NULL. */
  datatype CatalogRow = CatalogRow(id: string, itemName: string, itemType: string, urlName: string,
                                   thumb: string, maxRank: Option<int>, alias: Option<string>)

  /** An entry of `all_items`: the item's columns only. */
  datatype Item = Item(id: string, itemName: string, itemType: string, urlName: string,
                       thumb: string, maxRank: Option<int>)

  function ToItem(row: CatalogRow): Item {
    Item(row.id, row.itemName, row.itemType, row.urlName, row.thumb, row.maxRank)
  }

  /** `get_item_names`: the entries carry no `aliases` key, so an entry's only name is its own. */
  function GetItemNames(item: Item): seq<string> {
    [item.itemName]
  }

  function RowId(row: CatalogRow): string {
    row.id
  }

  /** The catalog `_get_all_items` builds from the query's rows. */
  function Catalog(rows: seq<CatalogRow>): seq<Item> {
    var f := FirstBy(rows, RowId);
    seq(|f|, i requires 0 <= i < |f| => ToItem(f[i]))
  }

  /** `_get_all_items`: the first row of an id fills its entry; later rows of the id change nothing
      in it (their aliases are collected beside the entry and dropped). */
  method GetAllItems(rows: seq<CatalogRow>) returns (allItems: seq<Item>)
    ensures allItems == Catalog(rows)
  {
    var itemDict: Dict<string, Item> := [];
    var i := 0;
    while i < |rows|
      invariant 0 <= i <= |rows|
      invariant itemDict == EntriesBy(FirstBy(rows[..i], RowId), RowId, ToItem)
    {
      var row := rows[i];
      GroupStep(rows, i, RowId, ToItem);
      if Lookup(itemDict, row.id).None? {
        itemDict := Put(itemDict, row.id, ToItem(row));
      }
      i := i + 1;
    }
    assert rows[..|rows|] == rows;
    allItems := ValuesOf(itemDict);
  }

  /** The catalog has one entry per id. */
  lemma CatalogDistinct(rows: seq<CatalogRow>)
    ensures forall i, j :: 0 <= i < j < |Catalog(rows)| ==> Catalog(rows)[i].id != Catalog(rows)[j].id
  {
    FirstBySpec(rows, RowId);
  }

  /** Every id of the rows has an entry. */
  lemma CatalogCovers(rows: seq<CatalogRow>)
    ensures forall i :: 0 <= i < |rows| ==> exists k :: 0 <= k < |Catalog(rows)| && Catalog(rows)[k].id == rows[i].id
  {
    var f := FirstBy(rows, RowId);
    var c := Catalog(rows);
    FirstBySpec(rows, RowId);
    forall i | 0 <= i < |rows| ensures exists k :: 0 <= k < |c| && c[k].id == rows[i].id {
      var k :| 0 <= k < |f| && KeysOf(f, RowId)[k] == RowId(rows[i]);
      assert c[k].id == rows[i].id;
    }
  }

  /** Every entry is made from the first row of its id. */
  lemma CatalogFirstRow(rows: seq<CatalogRow>)
    ensures forall k :: 0 <= k < |Catalog(rows)| ==>
      exists i :: 0 <= i < |rows| && Catalog(rows)[k] == ToItem(rows[i]) && forall j :: 0 <= j < i ==> rows[j].id != rows[i].id
  {
    var f := FirstBy(rows, RowId);
    var c := Catalog(rows);
    FirstBySpec(rows, RowId);
    forall k | 0 <= k < |c| ensures exists i :: 0 <= i < |rows| && c[k] == ToItem(rows[i]) && forall j :: 0 <= j < i ==> rows[j].id != rows[i].id {
      var i :| 0 <= i < |rows| && f[k] == rows[i] && forall j :: 0 <= j < i ==> RowId(rows[j]) != RowId(rows[i]);
      assert c[k] == ToItem(rows[i]);
    }
  }

  // ---------------------------------------------------------------------------
  // The resolver

  /** The word aliases `find_best_match` applies before cleaning the query. */
  const ItemAliases: Dict<string, string> := [("head", "neuroptics"), ("taserman", "volt")]

  /** `find_best_match(item_name, items)`. */
  method FindBestMatch(itemName: string, items: seq<Item>, ratio: Ratio) returns (r: Result<(int, Option<Item>)>)
    ensures var q := CleanQuery(itemName, ItemAliases, ratio);
      (q.Err? ==> r == Err(q.error))
      && (q.Ok? ==> IsBestMatch(items, ScoreOf(q.value, GetItemNames, ratio), r))
  {
    var name := ReplaceAliases(itemName, ItemAliases, AliasThreshold, ratio);
    var query := RemoveCommonWords(name, CommonWords, ratio);
    if query.Err? {
      return Err(query.error);
    }
    r := ScanCatalog(query.value, items, GetItemNames, ratio);
  }

  /** An entry is scored on its own cleaned name alone. */
  lemma ScoreOfName(q: string, item: Item, ratio: Ratio)
    ensures ScoreOf(q, GetItemNames, ratio)(item) ==
      match CleanName(item.itemName, CommonWords, ratio)
      case Err(e) => Err(e)
      case Ok(c) => Ok(ratio(q, c))
  {
    var n := item.itemName;
    var names := GetItemNames(item);
    assert names == [n] && names[0] == n && names[1..] == [];
    assert CleanAll(names[1..], ratio) == Ok([]);
    assert ScoreOf(q, GetItemNames, ratio)(item) == ItemScore(q, names, ratio);
    match CleanName(n, CommonWords, ratio)
    case Err(e) =>
      assert CleanAll(names, ratio) == Err(e);
    case Ok(c) =>
      assert [c] + [] == [c];
      assert CleanAll(names, ratio) == Ok([c]);
      assert MaxRatio(q, [c], ratio) == ratio(q, c);
  }

  class MarketDatabase {
    /** `self.all_items`. */
    var allItems: seq<Item>

    /** Connecting loads the catalog from the rows of the catalog query. */
    constructor(rows: seq<CatalogRow>)
      ensures allItems == Catalog(rows)
    {
      var catalog := GetAllItems(rows);
      allItems := catalog;
    }

    /** `_get_fuzzy_item`: the best match when its score is above 50. */
    method GetFuzzyItem(itemName: string, ratio: Ratio) returns (r: Result<Option<Item>>)
      ensures var q := CleanQuery(itemName, ItemAliases, ratio);
        (q.Err? ==> r == Err(q.error))
        && (q.Ok? ==> IsAccepted(allItems, ScoreOf(q.value, GetItemNames, ratio), r))
    {
      var m := FindBestMatch(itemName, allItems, ratio);
      r := Gate(m);
    }
  }

  // ---------------------------------------------------------------------------
  // create_filters

  const ModeSuffix := "_mode"

  /** The `filters` dict of `create_filters`: every key not ending in `_mode`. */
  function FiltersOf<V>(kwargs: Dict<string, V>): Dict<string, V> {
    if kwargs == [] then []
    else
      var d := FiltersOf(kwargs[..|kwargs| - 1]);
      var (key, value) := kwargs[|kwargs| - 1];
      if EndsWith(key, ModeSuffix) then d else Put(d, key, value)
  }

  /** The `mode` dict of `create_filters`: every `<field>_mode` key, under `<field>`. */
  function ModesOf<V>(kwargs: Dict<string, V>): Dict<string, V> {
    if kwargs == [] then []
    else
      var d := ModesOf(kwargs[..|kwargs| - 1]);
      var (key, value) := kwargs[|kwargs| - 1];
      if EndsWith(key, ModeSuffix) then Put(d, key[..|key| - |ModeSuffix|], value) else d
  }

  /** `MarketItem.create_filters(**kwargs)`. */
  method CreateFilters<V>(kwargs: Dict<string, V>) returns (filters: Dict<string, V>, mode: Dict<string, V>)
    ensures filters == FiltersOf(kwargs) && mode == ModesOf(kwargs)
  {
    filters, mode := [], [];
    var i := 0;
    while i < |kwargs|
      invariant 0 <= i <= |kwargs|
      invariant filters == FiltersOf(kwargs[..i]) && mode == ModesOf(kwargs[..i])
    {
      var (key, value) := kwargs[i];
      if EndsWith(key, ModeSuffix) {
        var field := key[..|key| - |ModeSuffix|];
        mode := Put(mode, field, value);
      } else {
        filters := Put(filters, key, value);
      }
      assert kwargs[..i + 1][..i] == kwargs[..i];
      i := i + 1;
    }
    assert kwargs[..|kwargs|] == kwargs;
  }

  /** `key` ends in `_mode` and names `field` exactly when it is `field + "_mode"`. */
  lemma ModeKey(key: string, field: string)
    ensures (EndsWith(key, ModeSuffix) && key[..|key| - |ModeSuffix|] == field) <==> key == field + ModeSuffix
  {
    if key == field + ModeSuffix {
      assert key[..|key| - |ModeSuffix|] == field;
    }
    if EndsWith(key, ModeSuffix) && key[..|key| - |ModeSuffix|] == field {
      assert key == key[..|key| - |ModeSuffix|] + key[|key| - |ModeSuffix|..];
    }
  }

  /** Nothing is lost: a key not ending in `_mode` is a filter with the argument's value, and the
      mode of a field is the value of the argument `<field>_mode`. (Keyword arguments are distinct,
      so the last value of a key is its only one.) */
  lemma {:induction false} CreateFiltersSpec<V>(kwargs: Dict<string, V>, key: string)
    ensures Lookup(FiltersOf(kwargs), key) == if EndsWith(key, ModeSuffix) then None else LastValue(kwargs, key)
    ensures Lookup(ModesOf(kwargs), key) == LastValue(kwargs, key + ModeSuffix)
  {
    if kwargs != [] {
      CreateFiltersSpec(kwargs[..|kwargs| - 1], key);
      ModeKey(kwargs[|kwargs| - 1].0, key);
    }
  }

  // ---------------------------------------------------------------------------
  // filter_orders

  /** The value `order.get(key)` of an order field. */
  datatype Value = VNone | VInt(i: int) | VStr(s: string)

  /** A filter value: None, a number, a string, or a list. */
  datatype FilterValue = FNone | FInt(n: int) | FStr(s: string) | FList(items: seq<Value>)

  /** `order.get(key)`: an absent subtype and an unknown key give None. */
  function Field(o: BookOrder, key: string): Value {
    if key == "last_update" then VStr(o.lastUpdate)
    else if key == "quantity" then VInt(o.quantity)
    else if key == "price" then VInt(o.price)
    else if key == "user" then VStr(o.user)
    else if key == "state" then VStr(o.state)
    else if key == "subtype" then (if o.subtype.Some? then VStr(o.subtype.value) else VNone)
    else VNone
  }

  /** `apply_filter`: a string filter becomes a one-element list and a None filter passes. An
      integer value is compared with `>` for "greater", `<` for "less" and `==` otherwise; other
      values are checked for (non-)membership, "blacklist" selecting non-membership. Ordering an
      integer against a list, or a membership test in an integer, raises TypeError. */
  function ApplyFilter(value: Value, filterValue: FilterValue, filterMode: Option<string>): (r: Result<bool>)
    ensures filterValue == FNone ==> r == Ok(true)
    ensures filterValue.FStr? && !value.VInt? ==>
      r == Ok(if filterMode == Some("blacklist") then value != VStr(filterValue.s) else value == VStr(filterValue.s))
    ensures value.VInt? && filterValue.FInt? ==>
      r == Ok(if filterMode == Some("greater") then value.i > filterValue.n
              else if filterMode == Some("less") then value.i < filterValue.n
              else value.i == filterValue.n)
    ensures value.VInt? && !filterValue.FInt? && filterValue != FNone ==>
      r == if filterMode == Some("greater") || filterMode == Some("less") then Err("TypeError") else Ok(false)
    ensures r.Err? ==> r.error == "TypeError"
  {
    var fv := if filterValue.FStr? then FList([VStr(filterValue.s)]) else filterValue;
    if fv == FNone then Ok(true)
    else if value.VInt? then
      if filterMode == Some("greater") then (if fv.FInt? then Ok(value.i > fv.n) else Err("TypeError"))
      else if filterMode == Some("less") then (if fv.FInt? then Ok(value.i < fv.n) else Err("TypeError"))
      else Ok(fv == FInt(value.i))
    else
      if fv.FInt? then Err("TypeError")
      else if filterMode == Some("blacklist") then Ok(value !in fv.items)
      else Ok(value in fv.items)
  }

  /** `apply_filter(order.get(key), value, key)` for one `(key, value)` entry of the filters. */
  function FilterAt(o: BookOrder, filter: (string, FilterValue), mode: Dict<string, string>): Result<bool> {
    ApplyFilter(Field(o, filter.0), filter.1, Lookup(mode, filter.0))
  }

  /** `all(apply_filter(order.get(key), v, key) for key, v in filters.items())`: stops at the
      first filter that fails or raises, so an error is raised exactly when the first filter that
      does not accept the order raises. */
  function AllFilters(o: BookOrder, filters: Dict<string, FilterValue>, mode: Dict<string, string>): (r: Result<bool>)
    ensures r == Ok(true) <==> forall i :: 0 <= i < |filters| ==> FilterAt(o, filters[i], mode) == Ok(true)
    ensures r.Err? ==>
      exists i :: 0 <= i < |filters| && FilterAt(o, filters[i], mode) == Err(r.error)
        && forall j :: 0 <= j < i ==> FilterAt(o, filters[j], mode) == Ok(true)
    ensures r.Err? <==>
      exists i :: 0 <= i < |filters| && FilterAt(o, filters[i], mode).Err?
        && forall j :: 0 <= j < i ==> FilterAt(o, filters[j], mode) == Ok(true)
  {
    if filters == [] then Ok(true)
    else
      match FilterAt(o, filters[0], mode)
      case Err(e) => Err(e)
      case Ok(b) =>
        if !b then Ok(false)
        else
          var rest := AllFilters(o, filters[1..], mode);
          assert forall i :: 1 <= i < |filters| ==> filters[i] == filters[1..][i - 1];
          if rest.Err? then
            ghost var i :| 0 <= i < |filters[1..]| && FilterAt(o, filters[1..][i], mode) == Err(rest.error)
              && forall j :: 0 <= j < i ==> FilterAt(o, filters[1..][j], mode) == Ok(true);
            assert forall j :: 0 <= j < i + 1 ==> FilterAt(o, filters[j], mode) == Ok(true);
            rest
          else rest
  }

  /** The test the comprehension of `filter_orders` applies to each order. */
  function Passes(filters: Dict<string, FilterValue>, mode: Dict<string, string>): BookOrder -> Result<bool> {
    o => AllFilters(o, filters, mode)
  }

  // ---------------------------------------------------------------------------
  // MarketItem

  /** The defaults of `filter_orders`: the sell side, five orders, no filters and no modes. */
  const FilterDefaults: (string, int, Option<Dict<string, FilterValue>>, Option<Dict<string, string>>) := ("sell", 5, None, None)

  class MarketItem {
    const itemId: string
    const itemName: string
    const itemType: string
    const itemUrlName: string
    const thumb: string
    const maxRank: Option<int>
    const thumbUrl: string
    const itemUrl: string
    /** `self.orders['buy']`. */
    var buy: seq<BookOrder>
    /** `self.orders['sell']`. */
    var sell: seq<BookOrder>

    constructor(itemId: string, itemName: string, itemType: string, itemUrlName: string, thumb: string, maxRank: Option<int>)
      ensures this.itemId == itemId && this.itemName == itemName && this.itemType == itemType
      ensures this.itemUrlName == itemUrlName && this.thumb == thumb && this.maxRank == maxRank
      ensures thumbUrl == AssetUrl + "/" + thumb && itemUrl == "https://warframe.market/items/" + itemUrlName
      ensures buy == [] && sell == []
    {
      this.itemId := itemId;
      this.itemName := itemName;
      this.itemType := itemType;
      this.itemUrlName := itemUrlName;
      this.thumb := thumb;
      this.maxRank := maxRank;
      thumbUrl := AssetUrl + "/" + thumb;
      itemUrl := "https://warframe.market/items/" + itemUrlName;
      buy, sell := [], [];
    }

    /** `self.orders[order_type]`. */
    function Side(orderType: string): (r: Result<seq<BookOrder>>)
      reads this
      ensures r.Ok? <==> IsSide(orderType)
    {
      if orderType == "buy" then Ok(buy) else if orderType == "sell" then Ok(sell) else Err("KeyError")
    }

    /** `filter_orders(order_type, num_orders, filters, mode)`; None for `filters` or `mode` is an
        empty dict. The source's defaults are `FilterDefaults`. */
    function FilterOrders(orderType: string, numOrders: int, filters: Option<Dict<string, FilterValue>>,
                          mode: Option<Dict<string, string>>): (r: Result<seq<BookOrder>>)
      reads this
      ensures !IsSide(orderType) ==> r == Err("KeyError")
      ensures IsSide(orderType) && filters.GetOr([]) == [] ==> r == Ok(SliceTo(Side(orderType).value, numOrders))
      ensures IsSide(orderType) ==>
        (r.Err? <==> exists i :: 0 <= i < |Side(orderType).value|
                                 && AllFilters(Side(orderType).value[i], filters.GetOr([]), mode.GetOr([])).Err?)
      ensures r.Ok? && numOrders >= 0 ==> |r.value| <= numOrders
      ensures r.Ok? ==> forall o :: o in r.value ==>
        o in Side(orderType).value && AllFilters(o, filters.GetOr([]), mode.GetOr([])) == Ok(true)
      ensures r.Ok? && numOrders >= |Side(orderType).value| ==>
        forall o :: o in Side(orderType).value && AllFilters(o, filters.GetOr([]), mode.GetOr([])) == Ok(true) ==> o in r.value
      ensures IsSide(orderType) && Keep(Side(orderType).value, Passes(filters.GetOr([]), mode.GetOr([]))).Ok? ==>
        r == Ok(SliceTo(Keep(Side(orderType).value, Passes(filters.GetOr([]), mode.GetOr([]))).value, numOrders))
      ensures IsSide(orderType) ==>
        forall i :: (0 <= i < |Side(orderType).value|
                     && AllFilters(Side(orderType).value[i], filters.GetOr([]), mode.GetOr([])).Err?
                     && (forall j :: 0 <= j < i ==> AllFilters(Side(orderType).value[j], filters.GetOr([]), mode.GetOr([])).Ok?))
          ==> r == Err(AllFilters(Side(orderType).value[i], filters.GetOr([]), mode.GetOr([])).error)
    {
      match Side(orderType)
      case Err(e) => Err(e)
      case Ok(orders) =>
        var p := Keep(orders, Passes(filters.GetOr([]), mode.GetOr([])));
        KeepSpec(orders, Passes(filters.GetOr([]), mode.GetOr([])));
        forall i | 0 <= i < |orders| && AllFilters(orders[i], filters.GetOr([]), mode.GetOr([])).Err?
            && (forall j :: 0 <= j < i ==> AllFilters(orders[j], filters.GetOr([]), mode.GetOr([])).Ok?)
          ensures p == Err(AllFilters(orders[i], filters.GetOr([]), mode.GetOr([])).error)
        {
          KeepFirstError(orders, Passes(filters.GetOr([]), mode.GetOr([])), i);
        }
        assert filters.GetOr([]) == [] ==> p == Ok(orders) by {
          if filters.GetOr([]) == [] {
            KeepAll(orders, Passes([], mode.GetOr([])));
          }
        }
        match p
        case Err(e) => Err(e)
        case Ok(kept) =>
          var r := SliceTo(kept, numOrders);
          assert forall o :: o in r ==> o in kept;
          assert numOrders >= |orders| ==> r == kept;
          Ok(r)
    }

    /** `parse_orders`: both buckets are replaced; each order goes to the bucket of its type; then
        `sell` is sorted ascending and `buy` descending by (price, last_update). An order of any
        other type raises KeyError, leaving the buckets with the orders before it, unsorted. The
        users seen (the last name of every user id) are what is handed to `update_usernames`. */
    method ParseOrders(orders: seq<RawOrder>) returns (r: Result<Dict<string, string>>)
      modifies this
      ensures AllRouted(orders) ==>
        r == Ok(FromPairs(UserPairs(orders))) && sell == Sort(Route(orders, "sell"), false) && buy == Sort(Route(orders, "buy"), true)
      ensures !AllRouted(orders) ==>
        r == Err("KeyError")
        && exists i :: 0 <= i < |orders| && !IsSide(orders[i].orderType) && AllRouted(orders[..i])
                       && sell == Route(orders[..i], "sell") && buy == Route(orders[..i], "buy")
    {
      buy, sell := [], [];
      var users: Dict<string, string> := [];
      var i := 0;
      while i < |orders|
        invariant 0 <= i <= |orders|
        invariant AllRouted(orders[..i])
        invariant buy == Route(orders[..i], "buy") && sell == Route(orders[..i], "sell")
        invariant users == FromPairs(UserPairs(orders[..i]))
      {
        var o := orders[i];
        ParseStep(orders, i);
        users := Put(users, o.userId, o.userName);
        if o.orderType == "buy" {
          buy := buy + [ParseOrder(o)];
        } else if o.orderType == "sell" {
          sell := sell + [ParseOrder(o)];
        } else {
          return Err("KeyError");
        }
        i := i + 1;
      }
      assert orders[..|orders|] == orders;
      sell := Sort(sell, false);
      buy := Sort(buy, true);
      r := Ok(users);
    }
  }

  /** One more order: routing, validity and the users extend by that order. */
  lemma ParseStep(orders: seq<RawOrder>, i: int)
    requires 0 <= i < |orders|
    ensures Route(orders[..i + 1], "buy") == Route(orders[..i], "buy") + (if orders[i].orderType == "buy" then [ParseOrder(orders[i])] else [])
    ensures Route(orders[..i + 1], "sell") == Route(orders[..i], "sell") + (if orders[i].orderType == "sell" then [ParseOrder(orders[i])] else [])
    ensures AllRouted(orders[..i + 1]) <==> AllRouted(orders[..i]) && IsSide(orders[i].orderType)
    ensures FromPairs(UserPairs(orders[..i + 1])) == Put(FromPairs(UserPairs(orders[..i])), orders[i].userId, orders[i].userName)
  {
    assert orders[..i + 1][..i] == orders[..i];
    assert UserPairs(orders[..i + 1]) == UserPairs(orders[..i]) + [(orders[i].userId, orders[i].userName)];
  }

  /** The (user id, name) pairs of the orders, in order. */
  function UserPairs(orders: seq<RawOrder>): seq<(string, string)> {
    seq(|orders|, i requires 0 <= i < |orders| => (orders[i].userId, orders[i].userName))
  }

  /** The users handed on hold every user id of the orders once, with the name of that user's
      last order. */
  lemma ParsedUsers(orders: seq<RawOrder>, id: string)
    ensures DistinctKeys(FromPairs(UserPairs(orders)))
    ensures Lookup(FromPairs(UserPairs(orders)), id).Some? <==> exists i :: 0 <= i < |orders| && orders[i].userId == id
    ensures Lookup(FromPairs(UserPairs(orders)), id).Some? ==>
      exists i :: 0 <= i < |orders| && orders[i].userId == id
                  && orders[i].userName == Lookup(FromPairs(UserPairs(orders)), id).value
                  && forall j :: i < j < |orders| ==> orders[j].userId != id
  {
    var pairs := UserPairs(orders);
    FromPairsLookup(pairs, id);
    UserPairsLast(orders, id);
  }

  lemma UserPairsLast(orders: seq<RawOrder>, id: string)
    ensures LastValue(UserPairs(orders), id).Some? <==> exists i :: 0 <= i < |orders| && orders[i].userId == id
    ensures LastValue(UserPairs(orders), id).Some? ==>
      exists i :: 0 <= i < |orders| && orders[i].userId == id
                  && orders[i].userName == LastValue(UserPairs(orders), id).value
                  && forall j :: i < j < |orders| ==> orders[j].userId != id
  {
    var pairs := UserPairs(orders);
    LastValueSpec(pairs, id);
    assert forall i :: 0 <= i < |orders| ==> pairs[i] == (orders[i].userId, orders[i].userName);
    if exists i :: 0 <= i < |orders| && orders[i].userId == id {
      var i :| 0 <= i < |orders| && orders[i].userId == id;
      assert pairs[i].0 == id;
    }
  }

  // ---------------------------------------------------------------------------
  // MarketUser

  class MarketUser {
    /** The profile attributes, by name. */
    var attrs: Dict<string, Json>
    /** `self.orders['buy']` and `['sell']`. */
    var buy: seq<UserOrder>
    var sell: seq<UserOrder>
    var reviews: seq<Review>

    constructor(userId: string, username: string)
      ensures attrs == InitialAttributes(userId, username)
      ensures buy == [] && sell == [] && reviews == []
    {
      attrs := InitialAttributes(userId, username);
      buy, sell, reviews := [], [], [];
    }

    /** `fetch_user_data` after the fetch: no response, or a `null` body, changes nothing; otherwise the profile's
        keys that name attributes are copied, then `avatar_url` is derived from a non-None avatar.
        A missing key raises KeyError, a non-object where an object is expected TypeError, and a
        profile that is not an object AttributeError (at `.items()`). */
    method FetchUserData(userData: Option<Json>) returns (r: Result<()>)
      modifies this
      ensures buy == old(buy) && sell == old(sell) && reviews == old(reviews)
      ensures NoUserData(userData) ==> r == Ok(()) && attrs == old(attrs)
      ensures !NoUserData(userData) && ProfileOf(userData.value).Err? ==>
        r == Err(ProfileOf(userData.value).error) && attrs == old(attrs)
      ensures !NoUserData(userData) && ProfileOf(userData.value).Ok? && !ProfileOf(userData.value).value.JObj? ==>
        r == Err("AttributeError") && attrs == old(attrs)
      ensures !NoUserData(userData) && ProfileOf(userData.value).Ok? && ProfileOf(userData.value).value.JObj? ==>
        r == Ok(()) && attrs == WithAvatarUrl(Copied(old(attrs), ProfileOf(userData.value).value.fields))
    {
      if NoUserData(userData) {
        return Ok(());
      }
      var profile := ProfileOf(userData.value);
      if profile.Err? {
        return Err(profile.error);
      }
      if !profile.value.JObj? {
        return Err("AttributeError");
      }
      var copied := CopyAttributes(attrs, profile.value.fields);
      attrs := WithAvatarUrl(copied);
      r := Ok(());
    }

    /** `parse_orders`: both sides are replaced; `sell_orders` fill `sell`, then `buy_orders` fill
        `buy`, in input order. A missing list raises KeyError after the lists before it were
        added. */
    method ParseOrders(orders: UserOrdersPayload) returns (r: Result<()>)
      modifies this
      ensures attrs == old(attrs) && reviews == old(reviews)
      ensures orders.sellOrders.None? ==> r == Err("KeyError") && sell == [] && buy == []
      ensures orders.sellOrders.Some? ==> sell == ParseAll(orders.sellOrders.value)
      ensures orders.sellOrders.Some? && orders.buyOrders.None? ==> r == Err("KeyError") && buy == []
      ensures orders.sellOrders.Some? && orders.buyOrders.Some? ==> r == Ok(()) && buy == ParseAll(orders.buyOrders.value)
    {
      buy, sell := [], [];
      if orders.sellOrders.None? {
        return Err("KeyError");
      }
      sell := AppendParsed(sell, orders.sellOrders.value);
      if orders.buyOrders.None? {
        return Err("KeyError");
      }
      buy := AppendParsed(buy, orders.buyOrders.value);
      r := Ok(());
    }

    /** `parse_reviews`: each review not already present is appended. */
    method ParseReviews(reviews: seq<RawReview>)
      modifies this
      ensures this.reviews == Unseen(old(this.reviews), reviews)
      ensures attrs == old(attrs) && buy == old(buy) && sell == old(sell)
    {
      this.reviews := AppendUnseen(this.reviews, reviews);
    }
  }
}
