/** modules/MarketData.py: the oldest resolver (no word aliases, no ignore list, only "prime"
    keeps a trailing "blueprint"), its catalog, and `MarketItem`'s order handling. */
module LegacyMarketData {
  import opened Prelude
  import opened Text
  import opened Dicts
  import Fuzzy
  import opened Orders
  import opened Grouping

  // ---------------------------------------------------------------------------
  // The resolver

  /** `remove_blueprint`: lower-case the text and drop a final word "blueprint" unless the word
      before it is "prime". The slice `words[-2:-1]` of a lone "blueprint" is empty, so that
      word is dropped too, leaving the empty string. */
  function RemoveBlueprint(s: string): (r: string)
    ensures var ws := Words(Lower(s));
      if |ws| >= 1 && ws[|ws| - 1] == "blueprint" && (|ws| == 1 || ws[|ws| - 2] != "prime")
      then Words(r) == ws[..|ws| - 1]
      else r == Lower(s)
    ensures Words(Lower(s)) == ["blueprint"] ==> r == ""
  {
    var words := Words(Lower(s));
    // `words[-2:-1] != ['prime']`: the slice is empty for a single word, else the word before last.
    if |words| >= 1 && words[|words| - 1] == "blueprint" && (|words| < 2 || words[|words| - 2] != "prime") then
      var init := words[..|words| - 1];
      assert forall w :: w in init ==> w in words;
      WordsOfJoin(init);
      JoinSpace(init)
    else Lower(s)
  }

  /** The words `remove_common_words` keeps, in order: those that resemble no common word. */
  ghost function Kept(words: seq<string>, commonWords: set<string>, ratio: Fuzzy.Ratio): seq<string> {
    if words == [] then []
    else
      var last := words[|words| - 1];
      Kept(words[..|words| - 1], commonWords, ratio) + (if Fuzzy.IsCommon(last, commonWords, ratio) then [] else [last])
  }

  /** What `remove_common_words` returns for `name`. */
  ghost function CleanName(name: string, commonWords: set<string>, ratio: Fuzzy.Ratio): string {
    JoinSpace(Kept(Words(RemoveBlueprint(name)), commonWords, ratio))
  }

  /** `remove_common_words`: the comprehension over the words. */
  method RemoveCommonWords(name: string, commonWords: set<string>, ratio: Fuzzy.Ratio) returns (r: string)
    requires "" !in commonWords
    ensures r == CleanName(name, commonWords, ratio)
  {
    var words := Words(RemoveBlueprint(name));
    var filtered: seq<string> := [];
    var i := 0;
    while i < |words|
      invariant 0 <= i <= |words|
      invariant filtered == Kept(words[..i], commonWords, ratio)
    {
      var closest := Fuzzy.ClosestCommonWord(words[i], commonWords, Fuzzy.CommonThreshold, ratio);
      if !(closest.Some? && closest.value != "") {
        filtered := filtered + [words[i]];
      }
      assert words[..i + 1][..i] == words[..i];
      i := i + 1;
    }
    assert words[..|words|] == words;
    r := JoinSpace(filtered);
  }

  /** A word survives exactly when it resembles no common word; nothing is exempt. */
  lemma {:induction false} KeptMembers(words: seq<string>, commonWords: set<string>, ratio: Fuzzy.Ratio, w: string)
    ensures w in Kept(words, commonWords, ratio) <==> w in words && !Fuzzy.IsCommon(w, commonWords, ratio)
  {
    if words != [] {
      var init := words[..|words| - 1];
      KeptMembers(init, commonWords, ratio, w);
      assert words == init + [words[|words| - 1]];
    }
  }

  /** The survivors keep their order: keeping distributes over concatenation. */
  lemma {:induction false} KeptAppend(a: seq<string>, b: seq<string>, commonWords: set<string>, ratio: Fuzzy.Ratio)
    ensures Kept(a + b, commonWords, ratio) == Kept(a, commonWords, ratio) + Kept(b, commonWords, ratio)
    decreases |b|
  {
    if b != [] {
      var n := |b| - 1;
      assert (a + b)[..|a + b| - 1] == a + b[..n];
      KeptAppend(a, b[..n], commonWords, ratio);
    } else {
      assert a + b == a;
    }
  }

  /** Where the variants part: a "primed" that resembles a common word is dropped here, but kept
      by the resolver of the newer files, whose ignore list holds it. */
  lemma PrimedDropped(commonWords: set<string>, ratio: Fuzzy.Ratio)
    requires Fuzzy.IsCommon("primed", commonWords, ratio)
    ensures Kept(["primed"], commonWords, ratio) == []
    ensures Fuzzy.Kept(["primed"], commonWords, ratio) == ["primed"]
  {
    assert ["primed"][..0] == [];
  }

  // ---------------------------------------------------------------------------
  // The catalog

  /** A row of the catalog query: an item's columns and one of its aliases, or NULL. */
  datatype CatalogRow = CatalogRow(id: string, itemName: string, itemType: string, urlName: string,
                                   thumb: string, alias: Option<string>)

  /** An entry of `all_items`: the item's columns only. */
  datatype Item = Item(id: string, itemName: string, itemType: string, urlName: string, thumb: string)

  function ToItem(row: CatalogRow): Item {
    Item(row.id, row.itemName, row.itemType, row.urlName, row.thumb)
  }

  function RowId(row: CatalogRow): string {
    row.id
  }

  /** `get_item_names`: the entries carry no `aliases` key, so an entry's only name is its own. */
  function GetItemNames(item: Item): seq<string> {
    [item.itemName]
  }

  /** The catalog `get_all_items` builds from the query's rows. */
  function Catalog(rows: seq<CatalogRow>): seq<Item> {
    var f := FirstBy(rows, RowId);
    seq(|f|, i requires 0 <= i < |f| => ToItem(f[i]))
  }

  /** `get_all_items`: the first row of an id fills its entry; its aliases are dropped. */
  method GetAllItems(rows: seq<CatalogRow>) returns (allItems: seq<Item>)
    ensures allItems == Catalog(rows)
  {
    var itemDict: Dict<string, Item> := [];
    var i := 0;
    while i < |rows|
      invariant 0 <= i <= |rows|
      invariant itemDict == EntriesBy(FirstBy(rows[..i], RowId), RowId, ToItem)
    {
      var row := rows[i];
      GroupStep(rows, i, RowId, ToItem);
      if Lookup(itemDict, row.id).None? {
        itemDict := Put(itemDict, row.id, ToItem(row));
      }
      i := i + 1;
    }
    assert rows[..|rows|] == rows;
    allItems := ValuesOf(itemDict);
  }

  /** The catalog has one entry per id. */
  lemma CatalogDistinct(rows: seq<CatalogRow>)
    ensures forall i, j :: 0 <= i < j < |Catalog(rows)| ==> Catalog(rows)[i].id != Catalog(rows)[j].id
  {
    FirstBySpec(rows, RowId);
  }

  /** Every id of the rows has an entry. */
  lemma CatalogCovers(rows: seq<CatalogRow>)
    ensures forall i :: 0 <= i < |rows| ==> exists k :: 0 <= k < |Catalog(rows)| && Catalog(rows)[k].id == rows[i].id
  {
    var f := FirstBy(rows, RowId);
    var c := Catalog(rows);
    FirstBySpec(rows, RowId);
    forall i | 0 <= i < |rows| ensures exists k :: 0 <= k < |c| && c[k].id == rows[i].id {
      var k :| 0 <= k < |f| && KeysOf(f, RowId)[k] == RowId(rows[i]);
      assert c[k].id == rows[i].id;
    }
  }

  /** Every entry is made from the first row of its id. */
  lemma CatalogFirstRow(rows: seq<CatalogRow>)
    ensures forall k :: 0 <= k < |Catalog(rows)| ==>
      exists i :: 0 <= i < |rows| && Catalog(rows)[k] == ToItem(rows[i]) && forall j :: 0 <= j < i ==> rows[j].id != rows[i].id
  {
    var f := FirstBy(rows, RowId);
    var c := Catalog(rows);
    FirstBySpec(rows, RowId);
    forall k | 0 <= k < |c| ensures exists i :: 0 <= i < |rows| && c[k] == ToItem(rows[i]) && forall j :: 0 <= j < i ==> rows[j].id != rows[i].id {
      var i :| 0 <= i < |rows| && f[k] == rows[i] && forall j :: 0 <= j < i ==> RowId(rows[j]) != RowId(rows[i]);
      assert c[k] == ToItem(rows[i]);
    }
  }

  // ---------------------------------------------------------------------------
  // find_best_match and get_fuzzy_item

  /** The cleaned names of an entry. */
  ghost function CleanedNames(names: seq<string>, commonWords: set<string>, ratio: Fuzzy.Ratio): (r: seq<string>)
    ensures |r| == |names|
  {
    seq(|names|, i requires 0 <= i < |names| => CleanName(names[i], commonWords, ratio))
  }

  /** One step of the cleaning loop. */
  lemma CleanedNamesStep(names: seq<string>, i: int, commonWords: set<string>, ratio: Fuzzy.Ratio)
    requires 0 <= i < |names|
    ensures CleanedNames(names[..i + 1], commonWords, ratio) == CleanedNames(names[..i], commonWords, ratio) + [CleanName(names[i], commonWords, ratio)]
  {
  }

  /** The score of one entry against the cleaned query: the best ratio over its cleaned names;
      `max` of no names raises ValueError. */
  ghost function ItemScore(q: string, names: seq<string>, commonWords: set<string>, ratio: Fuzzy.Ratio): Result<Score> {
    var cleaned := CleanedNames(names, commonWords, ratio);
    if cleaned == [] then Err("ValueError") else Ok(Fuzzy.MaxRatio(q, cleaned, ratio))
  }

  /** An entry's score is the ratio of its best-matching cleaned name; only an entry without names
      raises, with ValueError. */
  lemma ItemScoreSpec(q: string, names: seq<string>, commonWords: set<string>, ratio: Fuzzy.Ratio)
    ensures ItemScore(q, names, commonWords, ratio).Err? <==> names == []
    ensures ItemScore(q, names, commonWords, ratio).Err? ==> ItemScore(q, names, commonWords, ratio).error == "ValueError"
    ensures ItemScore(q, names, commonWords, ratio).Ok? ==>
      (exists i :: 0 <= i < |names| && ItemScore(q, names, commonWords, ratio).value == ratio(q, CleanName(names[i], commonWords, ratio)))
      && forall i :: 0 <= i < |names| ==> ratio(q, CleanName(names[i], commonWords, ratio)) <= ItemScore(q, names, commonWords, ratio).value
  {
    var cleaned := CleanedNames(names, commonWords, ratio);
    assert forall i :: 0 <= i < |names| ==> cleaned[i] == CleanName(names[i], commonWords, ratio);
  }

  /** The scoring of `find_best_match` for the cleaned query `q`, entries named by `names`. */
  ghost function ScoreOf<T>(q: string, names: T -> seq<string>, commonWords: set<string>, ratio: Fuzzy.Ratio): T -> Result<Score> {
    item => ItemScore(q, names(item), commonWords, ratio)
  }

  /** The per-entry step of `find_best_match`. */
  method ScoreEntry<T>(q: string, item: T, names: T -> seq<string>, commonWords: set<string>, ratio: Fuzzy.Ratio) returns (r: Result<Score>)
    requires "" !in commonWords
    ensures r == ScoreOf(q, names, commonWords, ratio)(item)
  {
    var itemNames := names(item);
    var processed: seq<string> := [];
    var i := 0;
    while i < |itemNames|
      invariant 0 <= i <= |itemNames|
      invariant processed == CleanedNames(itemNames[..i], commonWords, ratio)
    {
      var cleaned := RemoveCommonWords(itemNames[i], commonWords, ratio);
      CleanedNamesStep(itemNames, i, commonWords, ratio);
      processed := processed + [cleaned];
      i := i + 1;
    }
    assert itemNames[..|itemNames|] == itemNames;
    if processed == [] {
      return Err("ValueError");
    }
    r := Ok(Fuzzy.MaxRatio(q, processed, ratio));
  }

  /** The loop of `find_best_match`: the first entry reaching the best score, with strict `>` and
      a stop at 100. */
  method ScanCatalog<T>(q: string, items: seq<T>, names: T -> seq<string>, commonWords: set<string>, ratio: Fuzzy.Ratio) returns (r: Result<(int, Option<T>)>)
    requires "" !in commonWords
    ensures Fuzzy.IsBestMatch(items, ScoreOf(q, names, commonWords, ratio), r)
  {
    ghost var f := ScoreOf(q, names, commonWords, ratio);
    var bestScore := 0;
    var bestItem: Option<T> := None;
    ghost var bestIndex := 0;
    var i := 0;
    while i < |items|
      invariant Fuzzy.ScanInv(items, f, i, bestScore, bestItem, bestIndex)
    {
      var score := ScoreEntry(q, items[i], names, commonWords, ratio);
      if score.Err? {
        Fuzzy.ScanRaises(items, f, i, score.error);
        return Err(score.error);
      }
      Fuzzy.ScanStep(items, f, i, bestScore, bestItem, bestIndex, score.value);
      if score.value > bestScore {
        bestScore, bestItem, bestIndex := score.value, Some(items[i]), i;
      }
      if bestScore == 100 {
        return Ok((bestScore, bestItem));
      }
      i := i + 1;
    }
    Fuzzy.ScanReturns(items, f, i, bestScore, bestItem, bestIndex);
    r := Ok((bestScore, bestItem));
  }

  /** `find_best_match(item_name, items)`: the query is cleaned like the names, then scanned. */
  method FindBestMatch(itemName: string, items: seq<Item>, ratio: Fuzzy.Ratio) returns (r: Result<(int, Option<Item>)>)
    ensures Fuzzy.IsBestMatch(items, ScoreOf(CleanName(itemName, Fuzzy.CommonWords, ratio), GetItemNames, Fuzzy.CommonWords, ratio), r)
  {
    var q := RemoveCommonWords(itemName, Fuzzy.CommonWords, ratio);
    r := ScanCatalog(q, items, GetItemNames, Fuzzy.CommonWords, ratio);
  }

  /** An entry is scored on its own cleaned name alone, so the scan never raises. */
  lemma ScoreOfName(q: string, item: Item, commonWords: set<string>, ratio: Fuzzy.Ratio)
    ensures ScoreOf(q, GetItemNames, commonWords, ratio)(item) == Ok(ratio(q, CleanName(item.itemName, commonWords, ratio)))
  {
    var names := GetItemNames(item);
    ItemScoreSpec(q, names, commonWords, ratio);
    assert names[0] == item.itemName;
  }

  class MarketDatabase {
    /** `self.all_items`. */
    var allItems: seq<Item>

    /** Connecting loads the catalog from the rows of the catalog query. */
    constructor(rows: seq<CatalogRow>)
      ensures allItems == Catalog(rows)
    {
      var catalog := GetAllItems(rows);
      allItems := catalog;
    }

    /** `get_fuzzy_item`: the best match when its score is above 50. */
    method GetFuzzyItem(itemName: string, ratio: Fuzzy.Ratio) returns (r: Option<Item>)
      ensures Fuzzy.IsAccepted(allItems, ScoreOf(CleanName(itemName, Fuzzy.CommonWords, ratio), GetItemNames, Fuzzy.CommonWords, ratio), Ok(r))
    {
      var m := FindBestMatch(itemName, allItems, ratio);
      forall j | 0 <= j < |allItems|
        ensures ScoreOf(CleanName(itemName, Fuzzy.CommonWords, ratio), GetItemNames, Fuzzy.CommonWords, ratio)(allItems[j]).Ok?
      {
        ScoreOfName(CleanName(itemName, Fuzzy.CommonWords, ratio), allItems[j], Fuzzy.CommonWords, ratio);
      }
      r := Fuzzy.Gate(m).value;
    }
  }

  // ---------------------------------------------------------------------------
  // MarketItem

  /** The `only_online` test: the seller is in game. */
  function Online(): BookOrder -> Result<bool> {
    (o: BookOrder) => Ok(o.state == "ingame")
  }

  /** The `subtype` test: `x['subtype'] == subtype`, raising KeyError for an order without one. */
  function HasSubtype(subtype: string): BookOrder -> Result<bool> {
    (o: BookOrder) => if o.subtype.None? then Err("KeyError") else Ok(o.subtype.value == subtype)
  }

  /** The test of the one comprehension both steps amount to: in game when `only_online` is
      asked, and then of the given subtype, raising KeyError for an order without one. */
  function Wanted(onlyOnline: bool, subtype: Option<string>): BookOrder -> Result<bool> {
    (o: BookOrder) =>
      if onlyOnline && o.state != "ingame" then Ok(false)
      else if subtype.None? then Ok(true)
      else if o.subtype.None? then Err("KeyError")
      else Ok(o.subtype.value == subtype.value)
  }

  /** The two filters of `filter_orders` are the single comprehension over `Wanted`: the orders
      it keeps, in their original order, or its first KeyError. */
  lemma FilterSteps(orders: seq<BookOrder>, onlyOnline: bool, subtype: Option<string>)
    ensures SubtypeStep(OnlineStep(orders, onlyOnline), subtype) == Keep(orders, Wanted(onlyOnline, subtype))
  {
    var always := (o: BookOrder) => Ok(true);
    var w := Wanted(onlyOnline, subtype);
    if onlyOnline {
      var q := if subtype.None? then always else HasSubtype(subtype.value);
      KeepKeep(orders, Online(), q, w);
      if subtype.None? {
        KeepAll(Keep(orders, Online()).value, always);
      }
    } else {
      var q := if subtype.None? then always else HasSubtype(subtype.value);
      KeepKeep(orders, always, q, w);
      KeepAll(orders, always);
      if subtype.None? {
        KeepAll(orders, w);
      }
    }
  }

  /** The orders left by the `only_online` step: the in-game ones when asked, else all. */
  function OnlineStep(orders: seq<BookOrder>, onlyOnline: bool): (r: seq<BookOrder>)
    ensures |r| <= |orders|
    ensures forall o :: o in r <==> o in orders && (onlyOnline ==> o.state == "ingame")
    ensures !onlyOnline ==> r == orders
  {
    KeepSpec(orders, Online());
    if onlyOnline then Keep(orders, Online()).value else orders
  }

  /** The orders left by the `subtype` step, or the KeyError of an order without a subtype. */
  function SubtypeStep(orders: seq<BookOrder>, subtype: Option<string>): (r: Result<seq<BookOrder>>)
    ensures r.Err? <==> subtype.Some? && exists o :: o in orders && o.subtype.None?
    ensures r.Err? ==> r.error == "KeyError"
    ensures r.Ok? ==> |r.value| <= |orders| && forall o :: o in r.value <==> o in orders && (subtype.Some? ==> o.subtype == subtype)
    ensures subtype.None? ==> r == Ok(orders)
  {
    if subtype.None? then Ok(orders)
    else
      KeepSpec(orders, HasSubtype(subtype.value));
      assert forall i :: 0 <= i < |orders| ==> orders[i] in orders;
      Keep(orders, HasSubtype(subtype.value))
  }

  /** The defaults of `filter_orders`: the sell side, five orders, online sellers only, any subtype. */
  const FilterDefaults: (string, int, bool, Option<string>) := ("sell", 5, true, None)

  class MarketItem {
    const itemId: string
    const itemName: string
    const itemType: string
    const itemUrlName: string
    const thumb: string
    const thumbUrl: string
    const itemUrl: string
    /** `self.orders['buy']`. */
    var buy: seq<BookOrder>
    /** `self.orders['sell']`. */
    var sell: seq<BookOrder>

    constructor(itemId: string, itemName: string, itemType: string, itemUrlName: string, thumb: string)
      ensures this.itemId == itemId && this.itemName == itemName && this.itemType == itemType
      ensures this.itemUrlName == itemUrlName && this.thumb == thumb
      ensures thumbUrl == "https://warframe.market/static/assets/" + thumb
      ensures itemUrl == "https://warframe.market/items/" + itemUrlName
      ensures buy == [] && sell == []
    {
      this.itemId := itemId;
      this.itemName := itemName;
      this.itemType := itemType;
      this.itemUrlName := itemUrlName;
      this.thumb := thumb;
      thumbUrl := "https://warframe.market/static/assets/" + thumb;
      itemUrl := "https://warframe.market/items/" + itemUrlName;
      buy, sell := [], [];
    }

    /** `self.orders[order_type]`. */
    function Side(orderType: string): (r: Result<seq<BookOrder>>)
      reads this
      ensures r.Ok? <==> IsSide(orderType)
    {
      if orderType == "buy" then Ok(buy) else if orderType == "sell" then Ok(sell) else Err("KeyError")
    }

    /** `filter_orders(order_type, num_orders, only_online, subtype)`: keep the online orders when
        asked, then those of the given subtype, then the first `num_orders`. The source's defaults
        are `FilterDefaults`. */
    function FilterOrders(orderType: string, numOrders: int, onlyOnline: bool, subtype: Option<string>): (r: Result<seq<BookOrder>>)
      reads this
      ensures !IsSide(orderType) ==> r == Err("KeyError")
      ensures IsSide(orderType) ==>
        (r.Err? <==> subtype.Some? && exists o :: o in Side(orderType).value && (onlyOnline ==> o.state == "ingame") && o.subtype.None?)
      ensures r.Err? ==> r.error == "KeyError"
      ensures r.Ok? && numOrders >= 0 ==> |r.value| <= numOrders
      ensures r.Ok? ==> forall o :: o in r.value ==>
        o in Side(orderType).value && (onlyOnline ==> o.state == "ingame") && (subtype.Some? ==> o.subtype == subtype)
      ensures r.Ok? && numOrders >= |Side(orderType).value| ==>
        forall o :: o in Side(orderType).value && (onlyOnline ==> o.state == "ingame") && (subtype.Some? ==> o.subtype == subtype)
                    ==> o in r.value
      ensures IsSide(orderType) && !onlyOnline && subtype.None? ==> r == Ok(SliceTo(Side(orderType).value, numOrders))
      ensures IsSide(orderType) && Keep(Side(orderType).value, Wanted(onlyOnline, subtype)).Ok? ==>
        r == Ok(SliceTo(Keep(Side(orderType).value, Wanted(onlyOnline, subtype)).value, numOrders))
    {
      match Side(orderType)
      case Err(e) => Err(e)
      case Ok(orders) =>
        FilterSteps(orders, onlyOnline, subtype);
        match SubtypeStep(OnlineStep(orders, onlyOnline), subtype)
        case Err(e) => Err(e)
        case Ok(kept) =>
          var r := SliceTo(kept, numOrders);
          assert forall o :: o in r ==> o in kept;
          assert numOrders >= |orders| ==> r == kept;
          Ok(r)
    }

    /** `parse_orders`: both buckets are replaced; each order goes to the bucket of its type; then
        `sell` is sorted ascending and `buy` descending by (price, last_update). An order of any
        other type raises KeyError, leaving the buckets with the orders before it, unsorted. */
    method ParseOrders(orders: seq<RawOrder>) returns (r: Result<()>)
      modifies this
      ensures AllRouted(orders) ==>
        r == Ok(()) && sell == Sort(Route(orders, "sell"), false) && buy == Sort(Route(orders, "buy"), true)
      ensures !AllRouted(orders) ==>
        r == Err("KeyError")
        && exists i :: 0 <= i < |orders| && !IsSide(orders[i].orderType) && AllRouted(orders[..i])
                       && sell == Route(orders[..i], "sell") && buy == Route(orders[..i], "buy")
    {
      buy, sell := [], [];
      var i := 0;
      while i < |orders|
        invariant 0 <= i <= |orders|
        invariant AllRouted(orders[..i])
        invariant buy == Route(orders[..i], "buy") && sell == Route(orders[..i], "sell")
      {
        var o := orders[i];
        RouteStep(orders, i);
        if o.orderType == "buy" {
          buy := buy + [ParseOrder(o)];
        } else if o.orderType == "sell" {
          sell := sell + [ParseOrder(o)];
        } else {
          return Err("KeyError");
        }
        i := i + 1;
      }
      assert orders[..|orders|] == orders;
      sell := Sort(sell, false);
      buy := Sort(buy, true);
      r := Ok(());
    }
  }
}
