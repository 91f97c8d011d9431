/** market_engine/modules/Models/MarketDatabase.py: the catalog loaded from the database, the
    fuzzy item lookup with word aliases from the database, item-alias maintenance and the batched
    username update. The SQL tables are fields of the `MarketDatabase` object. */
module ModelsMarketDatabase {
  import opened Prelude
  import opened Text
  import opened Dicts
  import opened Fuzzy

  /** A row of the `items` table. */
  datatype ItemRecord = ItemRecord(id: string, itemName: string, itemType: string, urlName: string,
                                   thumb: string, maxRank: Option<int>)

  /** A row of the all-items query: the item and `GROUP_CONCAT` of its aliases, null when it has none. */
  datatype ItemRow = ItemRow(item: ItemRecord, alias: Option<string>)

  /** An entry of `all_items`. */
  datatype Item = Item(id: string, itemName: string, itemType: string, urlName: string,
                       thumb: string, maxRank: Option<int>, aliases: seq<string>)

  /** A point in time, as `datetime.now()` gives it. */
  type Time = int

  /** `get_item_names`: the item's name followed by its aliases. */
  function GetItemNames(item: Item): seq<string> {
    [item.itemName] + item.aliases
  }

  // ---------------------------------------------------------------------------
  // The item catalog

  /** The aliases the `item_aliases` table holds for `id`, in table order. */
  function AliasesOf(aliasTable: seq<(string, string)>, id: string): seq<string> {
    if aliasTable == [] then []
    else
      var last := aliasTable[|aliasTable| - 1];
      AliasesOf(aliasTable[..|aliasTable| - 1], id) + (if last.0 == id then [last.1] else [])
  }

  /** `GROUP_CONCAT(alias)`: the aliases joined with commas, null for none. */
  function GroupConcat(aliases: seq<string>): Option<string> {
    if aliases == [] then None else Some(JoinWith(aliases, ','))
  }

  /** The all-items query: one row per item, with its concatenated aliases. */
  function AllItemsQuery(itemsTable: seq<ItemRecord>, aliasTable: seq<(string, string)>): (rows: seq<ItemRow>)
    ensures |rows| == |itemsTable|
    ensures forall i :: 0 <= i < |rows| ==> rows[i].item == itemsTable[i]
  {
    seq(|itemsTable|, i requires 0 <= i < |itemsTable| =>
      ItemRow(itemsTable[i], GroupConcat(AliasesOf(aliasTable, itemsTable[i].id))))
  }

  /** The loop body of `_get_all_items`: the aliases are the comma split of the column, or none
      when it is null or empty. */
  function ToItem(row: ItemRow): Item {
    var r := row.item;
    var aliases := if row.alias.Some? && row.alias.value != "" then SplitOn(row.alias.value, ',') else [];
    Item(r.id, r.itemName, r.itemType, r.urlName, r.thumb, r.maxRank, aliases)
  }

  /** `_get_all_items`: one entry per row, in row order. */
  method GetAllItems(rows: seq<ItemRow>) returns (allItems: seq<Item>)
    ensures |allItems| == |rows|
    ensures forall i :: 0 <= i < |rows| ==> allItems[i] == ToItem(rows[i])
  {
    allItems := [];
    var i := 0;
    while i < |rows|
      invariant 0 <= i <= |rows|
      invariant |allItems| == i
      invariant forall k :: 0 <= k < i ==> allItems[k] == ToItem(rows[k])
    {
      var row := rows[i];
      var aliases: seq<string> := [];
      if row.alias.Some? && row.alias.value != "" {
        aliases := SplitOn(row.alias.value, ',');
      }
      var r := row.item;
      allItems := allItems + [Item(r.id, r.itemName, r.itemType, r.urlName, r.thumb, r.maxRank, aliases)];
      i := i + 1;
    }
  }

  /** The catalog the object holds after loading it from the tables. */
  function CatalogOf(itemsTable: seq<ItemRecord>, aliasTable: seq<(string, string)>): seq<Item> {
    var rows := AllItemsQuery(itemsTable, aliasTable);
    seq(|rows|, i requires 0 <= i < |rows| => ToItem(rows[i]))
  }

  /** Aliases that survive the comma concatenation: non-empty and free of commas. */
  predicate PlainAliases(aliasTable: seq<(string, string)>) {
    forall k :: 0 <= k < |aliasTable| ==> aliasTable[k].1 != "" && ',' !in aliasTable[k].1
  }

  lemma {:induction false} AliasesOfFrom(aliasTable: seq<(string, string)>, id: string)
    ensures forall x :: x in AliasesOf(aliasTable, id) ==> exists k :: 0 <= k < |aliasTable| && aliasTable[k] == (id, x)
  {
    if aliasTable != [] {
      var init := aliasTable[..|aliasTable| - 1];
      AliasesOfFrom(init, id);
      forall x | x in AliasesOf(init, id)
        ensures exists k :: 0 <= k < |aliasTable| && aliasTable[k] == (id, x)
      {
        var k :| 0 <= k < |init| && init[k] == (id, x);
        assert aliasTable[k] == (id, x);
      }
    }
  }

  /** Each catalog entry carries exactly the aliases its item has in the alias table, in table
      order, when every alias is non-empty and free of commas. */
  lemma CatalogAliases(itemsTable: seq<ItemRecord>, aliasTable: seq<(string, string)>, i: int)
    requires PlainAliases(aliasTable)
    requires 0 <= i < |itemsTable|
    ensures |CatalogOf(itemsTable, aliasTable)| == |itemsTable|
    ensures CatalogOf(itemsTable, aliasTable)[i].id == itemsTable[i].id
    ensures CatalogOf(itemsTable, aliasTable)[i].itemName == itemsTable[i].itemName
    ensures CatalogOf(itemsTable, aliasTable)[i].aliases == AliasesOf(aliasTable, itemsTable[i].id)
  {
    var aliases := AliasesOf(aliasTable, itemsTable[i].id);
    if aliases != [] {
      AliasesOfFrom(aliasTable, itemsTable[i].id);
      assert aliases[0] in aliases;
      forall k | 0 <= k < |aliases| ensures ',' !in aliases[k] {
        assert aliases[k] in aliases;
      }
      assert JoinWith(aliases, ',') != "" by {
        assert |aliases[0]| > 0;
        if |aliases| > 1 {
          assert JoinWith(aliases, ',') == aliases[0] + [','] + JoinWith(aliases[1..], ',');
        }
      }
      SplitOfJoin(aliases, ',');
    }
  }

  /** Adding a row adds its alias, at the end, to its own item only. */
  lemma AliasesOfAdd(aliasTable: seq<(string, string)>, itemId: string, alias: string, id: string)
    ensures AliasesOf(aliasTable + [(itemId, alias)], id)
            == AliasesOf(aliasTable, id) + (if id == itemId then [alias] else [])
  {
    assert (aliasTable + [(itemId, alias)])[..|aliasTable|] == aliasTable;
  }

  /** `DELETE FROM item_aliases WHERE item_id=%s AND alias=%s`: every matching row goes. */
  function DeleteAlias(aliasTable: seq<(string, string)>, itemId: string, alias: string): (r: seq<(string, string)>)
    ensures forall k :: 0 <= k < |r| ==> r[k] != (itemId, alias)
    ensures forall p :: p in r <==> p in aliasTable && p != (itemId, alias)
  {
    if aliasTable == [] then []
    else
      var last := aliasTable[|aliasTable| - 1];
      var init := aliasTable[..|aliasTable| - 1];
      assert aliasTable == init + [last];
      DeleteAlias(init, itemId, alias) + (if last == (itemId, alias) then [] else [last])
  }

  /** After the delete the item no longer has the alias; every other alias of every item stays. */
  lemma {:induction false} AliasesOfDelete(aliasTable: seq<(string, string)>, itemId: string, alias: string, id: string, x: string)
    ensures x in AliasesOf(DeleteAlias(aliasTable, itemId, alias), id)
            <==> x in AliasesOf(aliasTable, id) && (id, x) != (itemId, alias)
  {
    if aliasTable != [] {
      var init := aliasTable[..|aliasTable| - 1];
      var last := aliasTable[|aliasTable| - 1];
      AliasesOfDelete(init, itemId, alias, id, x);
      var d := DeleteAlias(init, itemId, alias);
      assert AliasesOf(aliasTable, id) == AliasesOf(init, id) + (if last.0 == id then [last.1] else []);
      if last != (itemId, alias) {
        assert DeleteAlias(aliasTable, itemId, alias) == d + [last];
        assert (d + [last])[..|d|] == d;
        assert AliasesOf(d + [last], id) == AliasesOf(d, id) + (if last.0 == id then [last.1] else []);
      } else {
        assert DeleteAlias(aliasTable, itemId, alias) == d;
      }
    }
  }

  /** Adding a plain alias keeps the aliases plain, so `CatalogAliases` still applies. */
  lemma AddPlain(aliasTable: seq<(string, string)>, itemId: string, alias: string)
    requires PlainAliases(aliasTable) && alias != "" && ',' !in alias
    ensures PlainAliases(aliasTable + [(itemId, alias)])
  {
    var t := aliasTable + [(itemId, alias)];
    forall k | 0 <= k < |t| ensures t[k].1 != "" && ',' !in t[k].1 {
      if k < |aliasTable| {
        assert t[k] == aliasTable[k];
      }
    }
  }

  /** An alias holding a comma is stored as it is, but the catalog hands it back split at the
      comma: the item's only alias row `p,q` gives the two aliases `p` and `q`. */
  lemma {:induction false} CommaAliasSplits(rec: ItemRecord, p: string, q: string)
    requires ',' !in p && ',' !in q
    ensures CatalogOf([rec], [(rec.id, p + "," + q)])[0].aliases == [p, q]
  {
    var table := [(rec.id, p + "," + q)];
    assert table[..0] == [];
    assert AliasesOf(table, rec.id) == [p + "," + q];
    assert JoinWith([p + "," + q], ',') == p + "," + q;
    assert p + "," + q != "";
    SplitOfField(p, q, ',');
    SplitOfField(q, [], ',');
  }

  /** `DeleteAlias` keeps aliases plain. */
  lemma DeletePlain(aliasTable: seq<(string, string)>, itemId: string, alias: string)
    requires PlainAliases(aliasTable)
    ensures PlainAliases(DeleteAlias(aliasTable, itemId, alias))
  {
    var r := DeleteAlias(aliasTable, itemId, alias);
    forall k | 0 <= k < |r| ensures r[k].1 != "" && ',' !in r[k].1 {
      assert r[k] in r;
    }
  }

  // ---------------------------------------------------------------------------
  // find_best_match with word aliases

  /** `find_best_match(item_name, items, word_aliases)`. */
  method FindBestMatch(itemName: string, items: seq<Item>, wordAliases: Dict<string, string>, ratio: Ratio)
    returns (r: Result<(int, Option<Item>)>)
    ensures CleanQuery(itemName, wordAliases, ratio).Err? ==> r == Err(CleanQuery(itemName, wordAliases, ratio).error)
    ensures CleanQuery(itemName, wordAliases, ratio).Ok? ==>
              IsBestMatch(items, ScoreOf(CleanQuery(itemName, wordAliases, ratio).value, GetItemNames, ratio), r)
  {
    var name := ReplaceAliases(itemName, wordAliases, AliasThreshold, ratio);
    var query := RemoveCommonWords(name, CommonWords, ratio);
    if query.Err? {
      return Err(query.error);
    }
    r := ScanCatalog(query.value, items, GetItemNames, ratio);
  }

  // ---------------------------------------------------------------------------
  // Username bookkeeping

  /** The pending names `update_usernames` writes: those of users absent from the store or stored
      under another name, in pending order. */
  function Changes(pending: Dict<string, string>, stored: Dict<string, string>): seq<(string, string)> {
    if pending == [] then []
    else
      var last := pending[|pending| - 1];
      Changes(pending[..|pending| - 1], stored) + (if Lookup(stored, last.0) != Some(last.1) then [last] else [])
  }

  /** One history row per change, all with the same time. */
  function Stamp(changes: seq<(string, string)>, now: Time): (r: seq<(string, string, Time)>)
    ensures |r| == |changes|
    ensures forall i :: 0 <= i < |r| ==> r[i] == (changes[i].0, changes[i].1, now)
  {
    seq(|changes|, i requires 0 <= i < |changes| => (changes[i].0, changes[i].1, now))
  }

  /** `executemany` of the upsert: each row in turn inserts the user or replaces the name. */
  function UpsertAll(store: Dict<string, string>, rows: seq<(string, string)>): Dict<string, string> {
    if rows == [] then store
    else
      var last := rows[|rows| - 1];
      Put(UpsertAll(store, rows[..|rows| - 1]), last.0, last.1)
  }

  /** The pending-names loop of `update_usernames`. */
  method CollectChanges(pending: Dict<string, string>, stored: Dict<string, string>, now: Time)
    returns (updates: seq<(string, string)>, history: seq<(string, string, Time)>)
    ensures updates == Changes(pending, stored)
    ensures history == Stamp(updates, now)
  {
    updates, history := [], [];
    var i := 0;
    while i < |pending|
      invariant 0 <= i <= |pending|
      invariant updates == Changes(pending[..i], stored)
      invariant history == Stamp(updates, now)
    {
      var (userId, newName) := pending[i];
      var current := Lookup(stored, userId);
      if current.None? || newName != current.value {
        updates := updates + [(userId, newName)];
        history := history + [(userId, newName, now)];
      }
      assert pending[..i + 1][..i] == pending[..i];
      i := i + 1;
    }
    assert pending[..|pending|] == pending;
  }

  lemma {:induction false} UpsertAllLookup(store: Dict<string, string>, rows: seq<(string, string)>, k: string)
    ensures Lookup(UpsertAll(store, rows), k) == if LastValue(rows, k).Some? then LastValue(rows, k) else Lookup(store, k)
    ensures DistinctKeys(store) ==> DistinctKeys(UpsertAll(store, rows))
  {
    if rows != [] {
      UpsertAllLookup(store, rows[..|rows| - 1], k);
      if DistinctKeys(store) {
        PutDistinct(UpsertAll(store, rows[..|rows| - 1]), rows[|rows| - 1].0, rows[|rows| - 1].1);
      }
    }
  }

  lemma {:induction false} ChangesLastValue(pending: Dict<string, string>, stored: Dict<string, string>, k: string)
    requires DistinctKeys(pending)
    ensures LastValue(Changes(pending, stored), k)
            == if Lookup(pending, k).Some? && Lookup(stored, k) != Lookup(pending, k) then Lookup(pending, k) else None
  {
    LookupLast(pending, k);
    if pending != [] {
      var init := pending[..|pending| - 1];
      var last := pending[|pending| - 1];
      assert DistinctKeys(init);
      ChangesLastValue(init, stored, k);
      LookupLast(init, k);
      var c := Changes(init, stored);
      assert LastValue(pending, k) == if last.0 == k then Some(last.1) else LastValue(init, k);
      if Lookup(stored, last.0) != Some(last.1) {
        assert Changes(pending, stored) == c + [last];
        assert (c + [last])[..|c|] == c;
        assert LastValue(c + [last], k) == if last.0 == k then Some(last.1) else LastValue(c, k);
      } else {
        assert Changes(pending, stored) == c;
      }
    }
  }

  /** After the update the store holds every pending name, and every user without a pending name
      keeps the stored one. */
  lemma UpdatedStore(pending: Dict<string, string>, stored: Dict<string, string>, k: string)
    requires DistinctKeys(pending)
    ensures Lookup(UpsertAll(stored, Changes(pending, stored)), k)
            == if Lookup(pending, k).Some? then Lookup(pending, k) else Lookup(stored, k)
  {
    UpsertAllLookup(stored, Changes(pending, stored), k);
    ChangesLastValue(pending, stored, k);
  }

  /** A user whose stored name already matches gets no upsert and no history row. */
  lemma {:induction false} ChangesMembers(pending: Dict<string, string>, stored: Dict<string, string>, p: (string, string))
    ensures p in Changes(pending, stored) <==> p in pending && Lookup(stored, p.0) != Some(p.1)
  {
    if pending != [] {
      var init := pending[..|pending| - 1];
      ChangesMembers(init, stored, p);
      assert pending == init + [pending[|pending| - 1]];
    }
  }

  // ---------------------------------------------------------------------------
  // The database object

  class MarketDatabase {
    /** The `items` table. */
    var itemsTable: seq<ItemRecord>
    /** The `item_aliases` table: (item_id, alias). */
    var aliasTable: seq<(string, string)>
    /** The `word_aliases` table as selected: (alias, word). */
    var wordAliasTable: seq<(string, string)>
    /** The `market_users` table, keyed by user id. */
    var marketUsers: Dict<string, string>
    /** The `username_history` table. */
    var usernameHistory: seq<(string, string, Time)>
    /** `self.all_items`. */
    var allItems: seq<Item>
    /** `self.users`: names seen since the last update, by user id. */
    var users: Dict<string, string>

    ghost predicate Valid()
      reads this
    {
      DistinctKeys(marketUsers) && DistinctKeys(users)
    }

    /** Connecting loads the catalog; no names are pending. */
    constructor(itemsTable: seq<ItemRecord>, aliasTable: seq<(string, string)>,
                wordAliasTable: seq<(string, string)>, marketUsers: Dict<string, string>)
      requires DistinctKeys(marketUsers)
      ensures Valid()
      ensures this.itemsTable == itemsTable && this.aliasTable == aliasTable
      ensures this.wordAliasTable == wordAliasTable && this.marketUsers == marketUsers
      ensures usernameHistory == [] && users == []
      ensures allItems == CatalogOf(itemsTable, aliasTable)
    {
      var catalog := GetAllItems(AllItemsQuery(itemsTable, aliasTable));
      this.itemsTable := itemsTable;
      this.aliasTable := aliasTable;
      this.wordAliasTable := wordAliasTable;
      this.marketUsers := marketUsers;
      usernameHistory := [];
      users := [];
      allItems := catalog;
    }

    /** `get_word_aliases`: `dict` of the (alias, word) rows; a later row for an alias wins. */
    function GetWordAliases(): (r: Dict<string, string>)
      reads this
      ensures DistinctKeys(r)
      ensures forall alias :: Lookup(r, alias) == LastValue(wordAliasTable, alias)
      ensures KeysInOrder(r) == FirstKeys(wordAliasTable)
    {
      FromPairsKeys(wordAliasTable);
      assert forall alias :: Lookup(FromPairs(wordAliasTable), alias) == LastValue(wordAliasTable, alias) by {
        forall alias ensures Lookup(FromPairs(wordAliasTable), alias) == LastValue(wordAliasTable, alias) {
          FromPairsLookup(wordAliasTable, alias);
        }
      }
      FromPairsLookup(wordAliasTable, "");
      FromPairs(wordAliasTable)
    }

    /** `_get_fuzzy_item`: the best match when its score is above 50. */
    method GetFuzzyItem(itemName: string, ratio: Ratio) returns (r: Result<Option<Item>>)
      ensures var q := CleanQuery(itemName, GetWordAliases(), ratio);
        (q.Err? ==> r == Err(q.error))
        && (q.Ok? ==> IsAccepted(allItems, ScoreOf(q.value, GetItemNames, ratio), r))
    {
      var m := FindBestMatch(itemName, allItems, GetWordAliases(), ratio);
      r := Gate(m);
    }

    /** `add_item_alias`: insert the row, then reload the catalog. */
    method AddItemAlias(itemId: string, alias: string)
      requires Valid()
      modifies this
      ensures Valid()
      ensures aliasTable == old(aliasTable) + [(itemId, alias)]
      ensures allItems == CatalogOf(itemsTable, aliasTable)
      ensures itemsTable == old(itemsTable) && wordAliasTable == old(wordAliasTable)
      ensures marketUsers == old(marketUsers) && usernameHistory == old(usernameHistory) && users == old(users)
    {
      aliasTable := aliasTable + [(itemId, alias)];
      allItems := GetAllItems(AllItemsQuery(itemsTable, aliasTable));
    }

    /** `remove_item_alias`: delete the rows, then reload the catalog. */
    method RemoveItemAlias(itemId: string, alias: string)
      requires Valid()
      modifies this
      ensures Valid()
      ensures aliasTable == DeleteAlias(old(aliasTable), itemId, alias)
      ensures allItems == CatalogOf(itemsTable, aliasTable)
      ensures itemsTable == old(itemsTable) && wordAliasTable == old(wordAliasTable)
      ensures marketUsers == old(marketUsers) && usernameHistory == old(usernameHistory) && users == old(users)
    {
      aliasTable := DeleteAlias(aliasTable, itemId, alias);
      allItems := GetAllItems(AllItemsQuery(itemsTable, aliasTable));
    }

    /** `add_word_alias`: insert a (word, alias) row. */
    method AddWordAlias(word: string, alias: string)
      modifies this
      ensures wordAliasTable == old(wordAliasTable) + [(alias, word)]
      ensures itemsTable == old(itemsTable) && aliasTable == old(aliasTable) && allItems == old(allItems)
      ensures marketUsers == old(marketUsers) && usernameHistory == old(usernameHistory) && users == old(users)
    {
      wordAliasTable := wordAliasTable + [(alias, word)];
    }

    /** `update_usernames`: write the changed pending names and their history, then forget them. */
    method UpdateUsernames(now: Time)
      requires Valid()
      modifies this
      ensures Valid()
      ensures users == []
      ensures marketUsers == UpsertAll(old(marketUsers), Changes(old(users), old(marketUsers)))
      ensures usernameHistory == old(usernameHistory) + Stamp(Changes(old(users), old(marketUsers)), now)
      ensures itemsTable == old(itemsTable) && aliasTable == old(aliasTable)
      ensures wordAliasTable == old(wordAliasTable) && allItems == old(allItems)
    {
      var userData := marketUsers;
      var pending := users;
      users := [];
      var updates, history := CollectChanges(pending, userData, now);
      UpsertAllLookup(marketUsers, updates, "");
      if updates != [] {
        marketUsers := UpsertAll(marketUsers, updates);
      }
      if history != [] {
        usernameHistory := usernameHistory + history;
      }
    }
  }
}
