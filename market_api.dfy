/** market_engine/modules/API/MarketAPI.py: the item information parsed from a statistics
    response, the per-item step of `process_price_history`, the name-to-id table and the saving of
    the price history. */
module MarketApi {
  import opened Prelude
  import opened Dicts
  import Common
  import PriceHistory

  type Record = Common.Record

  // ---------------------------------------------------------------------------
  // parse_item_info

  /** `parsed_info`: the set's other parts, the item's id, tags, maximum mod rank and subtypes. */
  datatype ParsedInfo = ParsedInfo(setItems: seq<Json>, itemId: Json, tags: Json, modMaxRank: Json, subtypes: Json)

  /** Python truthiness of a JSON value. */
  predicate Truthy(j: Json) {
    match j
    case JNull => false
    case JBool(b) => b
    case JInt(i) => i != 0
    case JStr(s) => s != ""
    case JArr(items) => items != []
    case JObj(fields) => fields != []
  }

  /** What a `for` loop iterates over: a list's items, a string's characters, an object's keys;
      anything else raises TypeError. */
  function Elements(j: Json): Result<seq<Json>> {
    match j
    case JArr(items) => Ok(items)
    case JStr(s) => Ok(seq(|s|, k requires 0 <= k < |s| => JStr([s[k]])))
    case JObj(fields) => Ok(seq(|fields|, k requires 0 <= k < |fields| => JStr(fields[k].0)))
    case _ => Err("TypeError")
  }

  /** The error the loop body raises on one set entry: subscripting a non-object raises
      TypeError; a missing `id`, or a missing `tags` on the item's own entry, KeyError. */
  function EntryError(own: Json, entry: Json): Option<string> {
    if !entry.JObj? then Some("TypeError")
    else match Lookup(entry.fields, "id")
      case None => Some("KeyError")
      case Some(id) => if id == own && "tags" !in KeySet(entry.fields) then Some("KeyError") else None
  }

  /** The first error raised over the entries, in order. */
  function FirstError(own: Json, entries: seq<Json>): Option<string> {
    if entries == [] then None
    else
      var earlier := FirstError(own, entries[..|entries| - 1]);
      if earlier.Some? then earlier else EntryError(own, entries[|entries| - 1])
  }

  /** The ids of the set's other entries, in order. */
  function OtherIds(own: Json, entries: seq<Json>): seq<Json> {
    if entries == [] then []
    else
      var earlier := OtherIds(own, entries[..|entries| - 1]);
      var last := entries[|entries| - 1];
      if last.JObj? && Lookup(last.fields, "id").Some? && Lookup(last.fields, "id").value != own
      then earlier + [Lookup(last.fields, "id").value] else earlier
  }

  /** The value of `key` in the last of the item's own entries that has it, else `default`. */
  function LastOwn(own: Json, entries: seq<Json>, key: string, default: Json): Json {
    if entries == [] then default
    else
      var last := entries[|entries| - 1];
      if last.JObj? && Lookup(last.fields, "id") == Some(own) && key in KeySet(last.fields)
      then Lookup(last.fields, key).value
      else LastOwn(own, entries[..|entries| - 1], key, default)
  }

  /** What `parse_item_info` returns or raises on `item_info`. */
  function ItemInfoOf(info: Record): Result<ParsedInfo> {
    match Lookup(info, "id")
    case None => Err("KeyError")
    case Some(own) =>
      match Lookup(info, "items_in_set")
      case None => Err("KeyError")
      case Some(inSet) =>
        match Elements(inSet)
        case Err(e) => Err(e)
        case Ok(entries) =>
          match FirstError(own, entries)
          case Some(e) => Err(e)
          case None =>
            var setRoot := LastOwn(own, entries, "set_root", JBool(false));
            Ok(ParsedInfo(if Truthy(setRoot) then OtherIds(own, entries) else [], own,
                          LastOwn(own, entries, "tags", JArr([])),
                          LastOwn(own, entries, "mod_max_rank", JNull),
                          LastOwn(own, entries, "subtypes", JArr([]))))
  }

  /** The loop's state after `i` entries. */
  ghost predicate InfoInv(own: Json, entries: seq<Json>, i: int, setItems: seq<Json>, setRoot: Json,
                          tags: Json, modMaxRank: Json, subtypes: Json)
    requires 0 <= i <= |entries|
  {
    var done := entries[..i];
    && FirstError(own, done).None?
    && setItems == OtherIds(own, done)
    && setRoot == LastOwn(own, done, "set_root", JBool(false))
    && tags == LastOwn(own, done, "tags", JArr([]))
    && modMaxRank == LastOwn(own, done, "mod_max_rank", JNull)
    && subtypes == LastOwn(own, done, "subtypes", JArr([]))
  }

  /** One entry more: the prefix functions unfold by one element. */
  lemma InfoPrefix(own: Json, entries: seq<Json>, i: int)
    requires 0 <= i < |entries|
    ensures entries[..i + 1][..i] == entries[..i] && entries[..i + 1][i] == entries[i]
  {
  }

  /** `parse_item_info`: the loop over the set's entries. */
  method ParseItemInfo(info: Record) returns (r: Result<ParsedInfo>)
    ensures r == ItemInfoOf(info)
  {
    var ownId := Lookup(info, "id");
    if ownId.None? {
      return Err("KeyError");
    }
    var own := ownId.value;
    var inSet := Lookup(info, "items_in_set");
    if inSet.None? {
      return Err("KeyError");
    }
    var elements := Elements(inSet.value);
    if elements.Err? {
      return Err(elements.error);
    }
    var entries := elements.value;
    var setItems: seq<Json> := [];
    var tags := JArr([]);
    var modMaxRank := JNull;
    var subtypes := JArr([]);
    var setRoot := JBool(false);
    var i := 0;
    assert entries[..0] == [];
    while i < |entries|
      invariant 0 <= i <= |entries|
      invariant InfoInv(own, entries, i, setItems, setRoot, tags, modMaxRank, subtypes)
    {
      InfoPrefix(own, entries, i);
      var entry := entries[i];
      if !entry.JObj? {
        FirstErrorRest(own, entries[..i + 1], entries[i + 1..]);
        assert entries[..i + 1] + entries[i + 1..] == entries;
        return Err("TypeError");
      }
      var id := Lookup(entry.fields, "id");
      if id.None? {
        FirstErrorRest(own, entries[..i + 1], entries[i + 1..]);
        assert entries[..i + 1] + entries[i + 1..] == entries;
        return Err("KeyError");
      }
      if id.value == own {
        if "set_root" in KeySet(entry.fields) {
          setRoot := Lookup(entry.fields, "set_root").value;
        }
        if "tags" !in KeySet(entry.fields) {
          FirstErrorRest(own, entries[..i + 1], entries[i + 1..]);
          assert entries[..i + 1] + entries[i + 1..] == entries;
          return Err("KeyError");
        }
        tags := Lookup(entry.fields, "tags").value;
        if "mod_max_rank" in KeySet(entry.fields) {
          modMaxRank := Lookup(entry.fields, "mod_max_rank").value;
        }
        if "subtypes" in KeySet(entry.fields) {
          subtypes := Lookup(entry.fields, "subtypes").value;
        }
      } else {
        setItems := setItems + [id.value];
      }
      i := i + 1;
    }
    assert entries[..i] == entries;
    if !Truthy(setRoot) {
      setItems := [];
    }
    r := Ok(ParsedInfo(setItems, own, tags, modMaxRank, subtypes));
  }

  /** Once an entry has raised, later entries do not matter. */
  lemma {:induction false} FirstErrorRest(own: Json, done: seq<Json>, rest: seq<Json>)
    requires FirstError(own, done).Some?
    ensures FirstError(own, done + rest) == FirstError(own, done)
  {
    if rest == [] {
      assert done + rest == done;
    } else {
      FirstErrorRest(own, done, rest[..|rest| - 1]);
      assert (done + rest)[..|done + rest| - 1] == done + rest[..|rest| - 1];
    }
  }

  /** The set's other parts are exactly the ids of the entries that are not the item itself, and
      the item's own id is never among them. */
  lemma {:induction false} OtherIdsSpec(own: Json, entries: seq<Json>)
    ensures own !in OtherIds(own, entries)
    ensures forall x :: x in OtherIds(own, entries) <==>
      x != own && exists i :: 0 <= i < |entries| && entries[i].JObj? && Lookup(entries[i].fields, "id") == Some(x)
  {
    if entries != [] {
      var init := entries[..|entries| - 1];
      OtherIdsSpec(own, init);
      assert forall i :: 0 <= i < |init| ==> init[i] == entries[i];
      forall x | x != own && exists i :: 0 <= i < |entries| && entries[i].JObj? && Lookup(entries[i].fields, "id") == Some(x)
        ensures x in OtherIds(own, entries)
      {
        var i :| 0 <= i < |entries| && entries[i].JObj? && Lookup(entries[i].fields, "id") == Some(x);
        if i < |init| {
          assert init[i] == entries[i];
        }
      }
    }
  }

  /** Without an entry for the item itself, every field keeps its default and the set list is
      emptied, since there is no `set_root`. */
  lemma {:induction false} NoOwnEntryDefaults(own: Json, entries: seq<Json>, key: string, default: Json)
    requires forall i :: 0 <= i < |entries| ==> !(entries[i].JObj? && Lookup(entries[i].fields, "id") == Some(own))
    ensures LastOwn(own, entries, key, default) == default
  {
    if entries != [] {
      var init := entries[..|entries| - 1];
      assert forall i :: 0 <= i < |init| ==> init[i] == entries[i];
      NoOwnEntryDefaults(own, init, key, default);
    }
  }

  /** What `parse_item_info` promises: the input id, and the other parts of the set only, never
      the item itself. */
  lemma ItemInfoSpec(info: Record)
    ensures ItemInfoOf(info).Ok? ==> Some(ItemInfoOf(info).value.itemId) == Lookup(info, "id")
    ensures ItemInfoOf(info).Ok? ==> ItemInfoOf(info).value.itemId !in ItemInfoOf(info).value.setItems
  {
    if ItemInfoOf(info).Ok? {
      OtherIdsSpec(Lookup(info, "id").value, Elements(Lookup(info, "items_in_set").value).value);
    }
  }

  /** When the set lists no entry for the item itself, every field keeps its default and the set
      list is emptied, since there is no `set_root`. */
  lemma ItemInfoDefaults(info: Record, own: Json, entries: seq<Json>)
    requires Lookup(info, "id") == Some(own) && Lookup(info, "items_in_set").Some?
    requires Elements(Lookup(info, "items_in_set").value) == Ok(entries)
    requires forall i :: 0 <= i < |entries| ==> !(entries[i].JObj? && Lookup(entries[i].fields, "id") == Some(own))
    ensures ItemInfoOf(info).Ok? ==> ItemInfoOf(info).value == ParsedInfo([], own, JArr([]), JNull, JArr([]))
  {
    NoOwnEntryDefaults(own, entries, "set_root", JBool(false));
    NoOwnEntryDefaults(own, entries, "tags", JArr([]));
    NoOwnEntryDefaults(own, entries, "mod_max_rank", JNull);
    NoOwnEntryDefaults(own, entries, "subtypes", JArr([]));
  }

  // ---------------------------------------------------------------------------
  // process_price_history, one item

  /** `fetch_and_process_item_statistics` after the fetch: the item's information is parsed and
      recorded under its id, then its closed and live series are processed. A parse error raises
      before any record is touched. */
  method ProcessItemStatistics(ph: PriceHistory.PriceHistoryDict, itemInfo: Dict<Json, ParsedInfo>, itemName: string,
                               itemId: Json, closed: seq<Record>, live: seq<Record>, statistics: Record,
                               translation: Dict<string, string>, itemIds: Dict<string, string>)
    returns (info: Dict<Json, ParsedInfo>, r: Result<()>)
    modifies ph
    ensures ItemInfoOf(statistics).Err? ==>
      r == Err(ItemInfoOf(statistics).error) && info == itemInfo && ph.buckets == old(ph.buckets)
    ensures ItemInfoOf(statistics).Ok? ==>
      var p := PriceHistory.Process(closed + live, PriceHistory.DayStep(itemName, translation, itemIds));
      && info == Put(itemInfo, itemId, ItemInfoOf(statistics).value)
      && ph.buckets == PriceHistory.Fill(old(ph.buckets), p.appended)
      && r == (if p.error.Some? then Err(p.error.value) else Ok(()))
  {
    var parsed := ParseItemInfo(statistics);
    if parsed.Err? {
      return itemInfo, Err(parsed.error);
    }
    info := Put(itemInfo, itemId, parsed.value);
    r := ph.ProcessItem(itemName, closed, live, translation, itemIds);
  }

  // ---------------------------------------------------------------------------
  // build_item_ids

  /** An entry of the market's item listing. */
  datatype ListedItem = ListedItem(itemName: string, id: string)

  function NameIdPairs(items: seq<ListedItem>): (r: seq<(string, string)>)
    ensures |r| == |items|
    ensures forall i :: 0 <= i < |items| ==> r[i] == (items[i].itemName, items[i].id)
  {
    seq(|items|, i requires 0 <= i < |items| => (items[i].itemName, items[i].id))
  }

  /** `build_item_ids`: one entry per name, holding the id of the name's last listing, so a later
      duplicate name overwrites an earlier one. */
  method BuildItemIds(items: seq<ListedItem>) returns (r: Dict<string, string>)
    ensures DistinctKeys(r)
    ensures forall name :: Lookup(r, name) == LastValue(NameIdPairs(items), name)
  {
    r := [];
    var i := 0;
    while i < |items|
      invariant 0 <= i <= |items|
      invariant r == FromPairs(NameIdPairs(items)[..i])
    {
      assert NameIdPairs(items)[..i + 1][..i] == NameIdPairs(items)[..i];
      r := Put(r, items[i].itemName, items[i].id);
      i := i + 1;
    }
    assert NameIdPairs(items)[..i] == NameIdPairs(items);
    FromPairsLookup(NameIdPairs(items), "");
    forall name ensures Lookup(r, name) == LastValue(NameIdPairs(items), name) {
      FromPairsLookup(NameIdPairs(items), name);
    }
  }

  /** Every listed name has an id, that of its last listing, and no other name has one. */
  lemma ItemIdsSpec(items: seq<ListedItem>, name: string)
    ensures LastValue(NameIdPairs(items), name).Some? <==> exists i :: 0 <= i < |items| && items[i].itemName == name
    ensures LastValue(NameIdPairs(items), name).Some? ==>
      exists i :: 0 <= i < |items| && items[i] == ListedItem(name, LastValue(NameIdPairs(items), name).value)
                  && forall j :: i < j < |items| ==> items[j].itemName != name
  {
    var pairs := NameIdPairs(items);
    LastValueSpec(pairs, name);
    if exists i :: 0 <= i < |items| && items[i].itemName == name {
      var i :| 0 <= i < |items| && items[i].itemName == name;
      assert pairs[i].0 == name;
    }
    if name in KeySet(pairs) {
      var i :| 0 <= i < |pairs| && pairs[i].0 == name;
      assert items[i].itemName == name;
    }
  }

  // ---------------------------------------------------------------------------
  // save_price_history

  /** `f"{directory}{platform}/price_history_"`, where the platform part is empty for pc. */
  function SavePrefix(directory: string, platform: string): string {
    directory + (if platform == "pc" then "" else "/" + platform) + "/price_history_"
  }

  /** `save_price_history`: every day not yet on disk is written to its own file. */
  method SavePriceHistory(store: PriceHistory.FileStore, history: PriceHistory.Buckets, directory: string, platform: string)
    modifies store
    ensures store.files == PriceHistory.SaveAll(old(store.files), history, SavePrefix(directory, platform))
  {
    var prefix := directory + (if platform == "pc" then "" else "/" + platform) + "/price_history_";
    PriceHistory.SaveDays(store, history, prefix);
  }

  /** The file of a day: `directory/price_history_<day>.json` for pc, with the platform as a
      sub-directory otherwise. */
  lemma SavePathSpec(directory: string, platform: string, day: string)
    ensures platform == "pc" ==> PriceHistory.DayPath(SavePrefix(directory, platform), day) == directory + "/price_history_" + day + ".json"
    ensures platform != "pc" ==>
      PriceHistory.DayPath(SavePrefix(directory, platform), day) == directory + "/" + platform + "/price_history_" + day + ".json"
  {
  }
}
