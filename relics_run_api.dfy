/** market_engine/modules/API/RelicsRunAPI.py: this variant's `fix_names_and_add_ids`, the link
    and file filters that list the remote and saved history dates, the dates still to fetch, and
    the order of the four catalogue downloads. market_engine/API/RelicsRunAPI.py has the same link
    filter, file filter, set difference and download order; its members are these. */
module RelicsRunApi {
  import opened Prelude
  import opened Text
  import opened Dicts
  import Common

  type Record = Common.Record

  // ---------------------------------------------------------------------------
  // fix_names_and_add_ids, without the order_type default

  /** A day after this variant's loop body: only `item_id` is set. */
  function TagDay(day: Record, name: string, itemIds: Dict<string, string>, hash: string -> string): Record {
    Put(day, "item_id", JStr(Common.GetItemId(name, itemIds, hash)))
  }

  /** The days of one entry after the inner loop; the day at index `j` sees the name translated
      `j + 1` times, as in `Common.FixDays`. */
  function TagDays(days: seq<Record>, name: string, translation: Dict<string, string>,
                   itemIds: Dict<string, string>, hash: string -> string): (r: seq<Record>)
    ensures |r| == |days|
  {
    seq(|days|, j requires 0 <= j < |days| => TagDay(days[j], Common.TranslateN(translation, name, j + 1), itemIds, hash))
  }

  function TagAll(data: Dict<string, seq<Record>>, translation: Dict<string, string>,
                  itemIds: Dict<string, string>, hash: string -> string): (r: Dict<string, seq<Record>>)
    ensures |r| == |data|
  {
    seq(|data|, i requires 0 <= i < |data| => (data[i].0, TagDays(data[i].1, data[i].0, translation, itemIds, hash)))
  }

  /** The inner loop over the days of one entry: the name is translated again before each day. */
  method TagEntryDays(days: seq<Record>, key: string, translation: Dict<string, string>,
                      itemIds: Dict<string, string>, hash: string -> string) returns (fixed: seq<Record>)
    ensures fixed == TagDays(days, key, translation, itemIds, hash)
  {
    var itemName := key;
    fixed := [];
    var j := 0;
    while j < |days|
      invariant 0 <= j <= |days|
      invariant itemName == Common.TranslateN(translation, key, j)
      invariant fixed == TagDays(days, key, translation, itemIds, hash)[..j]
    {
      if itemName in KeySet(translation) {
        itemName := Lookup(translation, itemName).value;
      }
      TagDaysStep(days, key, translation, itemIds, hash, j);
      fixed := fixed + [TagDay(days[j], itemName, itemIds, hash)];
      j := j + 1;
    }
  }

  lemma TagDaysStep(days: seq<Record>, key: string, translation: Dict<string, string>,
                    itemIds: Dict<string, string>, hash: string -> string, j: int)
    requires 0 <= j < |days|
    ensures TagDays(days, key, translation, itemIds, hash)[..j + 1] ==
      TagDays(days, key, translation, itemIds, hash)[..j] + [TagDay(days[j], Common.TranslateN(translation, key, j + 1), itemIds, hash)]
  {
    var all := TagDays(days, key, translation, itemIds, hash);
    TakeSnoc(all, j);
    assert all[j] == TagDay(days[j], Common.TranslateN(translation, key, j + 1), itemIds, hash);
  }

  /** `fix_names_and_add_ids`: every entry's days tagged, the entries kept in order. */
  method FixNamesAndAddIds(data: Dict<string, seq<Record>>, translation: Dict<string, string>,
                           itemIds: Dict<string, string>, hash: string -> string) returns (r: Dict<string, seq<Record>>)
    ensures r == TagAll(data, translation, itemIds, hash)
  {
    r := [];
    var i := 0;
    while i < |data|
      invariant 0 <= i <= |data|
      invariant r == TagAll(data, translation, itemIds, hash)[..i]
    {
      var fixed := TagEntryDays(data[i].1, data[i].0, translation, itemIds, hash);
      r := r + [(data[i].0, fixed)];
      i := i + 1;
    }
  }

  /** A tagged day has the id of its translated name; every other key, `order_type` included,
      keeps its value, so a day without `order_type` still has none. */
  lemma TagDaySpec(day: Record, name: string, itemIds: Dict<string, string>, hash: string -> string)
    ensures Lookup(TagDay(day, name, itemIds, hash), "item_id") == Some(JStr(Common.GetItemId(name, itemIds, hash)))
    ensures forall k :: k != "item_id" ==> Lookup(TagDay(day, name, itemIds, hash), k) == Lookup(day, k)
    ensures KeySet(TagDay(day, name, itemIds, hash)) == KeySet(day) + {"item_id"}
  {
  }

  /** After the loops the day at index `j` of entry `key` carries the id of `key` translated
      `j + 1` times, and its `order_type` is the one it came with. */
  lemma {:induction false} TagAllSpec(data: Dict<string, seq<Record>>, translation: Dict<string, string>,
                                      itemIds: Dict<string, string>, hash: string -> string, i: int, j: int)
    requires 0 <= i < |data| && 0 <= j < |data[i].1|
    ensures TagAll(data, translation, itemIds, hash)[i].0 == data[i].0
    ensures var day := TagAll(data, translation, itemIds, hash)[i].1[j];
      Lookup(day, "item_id") == Some(JStr(Common.GetItemId(Common.TranslateN(translation, data[i].0, j + 1), itemIds, hash)))
      && Lookup(day, "order_type") == Lookup(data[i].1[j], "order_type")
  {
    var name := Common.TranslateN(translation, data[i].0, j + 1);
    var days := TagDays(data[i].1, data[i].0, translation, itemIds, hash);
    assert TagAll(data, translation, itemIds, hash)[i] == (data[i].0, days);
    assert days[j] == TagDay(data[i].1[j], name, itemIds, hash);
    TagDaySpec(data[i].1[j], name, itemIds, hash);
  }

  /** This variant and `Common.FixDay` agree exactly on the days that already carry an
      `order_type`; on the others only `Common.FixDay` adds one. */
  lemma TagDayVersusFixDay(day: Record, name: string, itemIds: Dict<string, string>, hash: string -> string)
    ensures "order_type" in KeySet(day) ==> TagDay(day, name, itemIds, hash) == Common.FixDay(day, name, itemIds, hash)
    ensures "order_type" !in KeySet(day) ==>
      "order_type" !in KeySet(TagDay(day, name, itemIds, hash))
      && "order_type" in KeySet(Common.FixDay(day, name, itemIds, hash))
  {
    Common.FixDaySpec(day, name, itemIds, hash);
  }

  // ---------------------------------------------------------------------------
  // The remote and saved listings

  /** The loop over the history page's anchors: the links ending in "json", as a set. An anchor
      without `href` gives None, on which `endswith` raises AttributeError. */
  method JsonLinkSet(hrefs: seq<Option<string>>) returns (r: Result<set<string>>)
    ensures r.Err? <==> None in hrefs
    ensures r.Err? ==> r.error == "AttributeError"
    ensures r.Ok? ==> forall x :: x in r.value <==> Some(x) in hrefs && EndsWith(x, "json")
  {
    var urls: set<string> := {};
    for i := 0 to |hrefs|
      invariant None !in hrefs[..i]
      invariant forall x :: x in urls <==> Some(x) in hrefs[..i] && EndsWith(x, "json")
    {
      assert hrefs[..i + 1] == hrefs[..i] + [hrefs[i]];
      var link := hrefs[i];
      if link.None? {
        return Err("AttributeError");
      }
      if EndsWith(link.value, "json") {
        urls := urls + {link.value};
      }
    }
    assert hrefs[..|hrefs|] == hrefs;
    return Ok(urls);
  }

  /** `get_saved_data`: the directory's file names ending in ".json". */
  method SavedData(files: seq<string>) returns (saved: set<string>)
    ensures forall f :: f in saved <==> f in files && EndsWith(f, ".json")
  {
    saved := {};
    for i := 0 to |files|
      invariant forall f :: f in saved <==> f in files[..i] && EndsWith(f, ".json")
    {
      assert files[..i + 1] == files[..i] + [files[i]];
      if EndsWith(files[i], ".json") {
        saved := saved + {files[i]};
      }
    }
    assert files[..|files|] == files;
  }

  /** The dates still to fetch: the remote dates that are not saved. */
  function DatesToFetch(remote: set<string>, saved: set<string>): (r: set<string>)
    ensures r <= remote
    ensures r !! saved
    ensures forall d :: d in remote && d !in saved ==> d in r
  {
    remote - saved
  }

  /** `get_dates_to_fetch`: the remote listing, less the saved listing. A missing `href` raises
      before the directory is listed. */
  method GetDatesToFetch(hrefs: seq<Option<string>>, files: seq<string>) returns (r: Result<set<string>>)
    ensures r.Err? <==> None in hrefs
    ensures r.Ok? ==> forall d :: d in r.value <==>
      Some(d) in hrefs && EndsWith(d, "json") && !(d in files && EndsWith(d, ".json"))
  {
    var remote := JsonLinkSet(hrefs);
    if remote.Err? {
      return Err(remote.error);
    }
    var saved := SavedData(files);
    r := Ok(DatesToFetch(remote.value, saved));
  }

  /** A saved file's name ends in ".json", hence in "json": a link naming an already saved file is
      never fetched again, and every date fetched names a file not yet saved. */
  lemma SavedLinksSkipped(remote: set<string>, files: seq<string>, saved: set<string>)
    requires forall f :: f in saved <==> f in files && EndsWith(f, ".json")
    ensures forall d :: d in DatesToFetch(remote, saved) ==> d !in files || !EndsWith(d, ".json")
    ensures forall d :: d in remote && d in files && EndsWith(d, ".json") ==> d !in DatesToFetch(remote, saved)
  {
  }

  // ---------------------------------------------------------------------------
  // fetch_item_data_from_relics_run

  const ItemsUrl := "https://relics.run/market_data/items.json"
  const ItemIdsUrl := "https://relics.run/market_data/item_ids.json"
  const ItemInfoUrl := "https://relics.run/market_data/item_info.json"
  const TranslationUrl := "https://relics.run/market_data/translation_dict.json"

  /** The four catalogue files, in the order the downloads are listed; no two are the same. */
  function ItemDataUrls(): (r: seq<string>)
    ensures |r| == 4
    ensures forall k, l :: 0 <= k < l < |r| ==> r[k] != r[l]
  {
    [ItemsUrl, ItemIdsUrl, ItemInfoUrl, TranslationUrl]
  }

  /** Without headers, `fetch_api_data` stores under `url + "#{}"`, which ends in '}', while every
      catalogue URL ends in 'n': no store key is one of them. */
  lemma StoreKeyNotItemUrl(url: string, k: int)
    requires 0 <= k < 4
    ensures Common.CacheKey(url, None) != ItemDataUrls()[k]
  {
    var key := Common.CacheKey(url, None);
    assert key == url + "#" + "{}";
    assert key[|key| - 1] == '}';
    var u := ItemDataUrls()[k];
    assert u[|u| - 1] == 'n';
  }

  /** What one `fetch_api_data` call gives, read off the cache as it was before the downloads:
      the stored text on a hit, else the outcome of the request. */
  function Outcome<D>(cached: Option<string>, response: Result<D>): Result<Common.Fetched<D>> {
    if cached.Some? then Ok(Common.Hit(cached.value))
    else match response
      case Ok(data) => Ok(Common.Miss(data))
      case Err(e) => Err(e)
  }

  /** The cache after one download of `url` with no headers: a miss whose request succeeds stores
      `str(data)` under `fetch_api_data`'s key; anything else leaves the cache alone. */
  function StoreMiss<D>(entries: map<string, string>, url: string, response: Result<D>, str: D -> string): map<string, string> {
    if url !in entries && response.Ok? then entries[Common.CacheKey(url, None) := str(response.value)] else entries
  }

  /** `asyncio.gather`: the results in the order the coroutines are listed, or the error of one
      that raised, taken here as the first one in that order. */
  function Gather<T>(outcomes: seq<Result<T>>): (r: Result<seq<T>>)
    ensures r.Ok? <==> forall i :: 0 <= i < |outcomes| ==> outcomes[i].Ok?
    ensures r.Ok? ==> |r.value| == |outcomes| && forall i :: 0 <= i < |outcomes| ==> r.value[i] == outcomes[i].value
    ensures r.Err? ==>
      exists i :: 0 <= i < |outcomes| && outcomes[i] == Err(r.error) && forall j :: 0 <= j < i ==> outcomes[j].Ok?
  {
    if outcomes == [] then Ok([])
    else
      assert forall i :: 1 <= i < |outcomes| ==> outcomes[i] == outcomes[1..][i - 1];
      match outcomes[0]
      case Err(e) => Err(e)
      case Ok(x) =>
        match Gather(outcomes[1..])
        case Err(e) =>
          ghost var i :| 0 <= i < |outcomes[1..]| && outcomes[1..][i] == Err(e) && forall j :: 0 <= j < i ==> outcomes[1..][j].Ok?;
          assert outcomes[i + 1] == Err(e);
          Err(e)
        case Ok(xs) => Ok([x] + xs)
  }

  /** One download of a catalogue URL: `fetch_api_data` without headers or rate limiter. Its
      store never changes what the four catalogue URLs find in the cache. */
  method FetchItemFile<D>(cache: Common.Cache?, url: string, response: Result<D>, str: D -> string)
    returns (r: Result<Common.Fetched<D>>)
    modifies cache
    ensures r == Outcome(old(Common.GetCachedData(cache, url)), response)
    ensures cache != null ==> cache.entries == StoreMiss(old(cache.entries), url, response, str)
    ensures forall k :: 0 <= k < 4 ==>
      Common.GetCachedData(cache, ItemDataUrls()[k]) == old(Common.GetCachedData(cache, ItemDataUrls()[k]))
  {
    forall k | 0 <= k < 4 ensures Common.CacheKey(url, None) != ItemDataUrls()[k] {
      StoreKeyNotItemUrl(url, k);
    }
    r := Common.FetchApiData(cache, url, None, null, response, str);
  }

  /** `fetch_item_data_from_relics_run`: the four downloads on the one cache; `responses` holds
      each request's outcome in the listed order. Each result is that URL's own cache entry from
      before the downloads, or its response: no download's store is ever found by another's
      lookup, nor by its own, so the catalogue URLs find the cache as it was. */
  method FetchItemData<D>(cache: Common.Cache?, responses: seq<Result<D>>, str: D -> string)
    returns (r: Result<seq<Common.Fetched<D>>>, outcomes: seq<Result<Common.Fetched<D>>>)
    requires |responses| == 4
    modifies cache
    ensures |outcomes| == 4
    ensures forall k :: 0 <= k < 4 ==>
      outcomes[k] == Outcome(old(Common.GetCachedData(cache, ItemDataUrls()[k])), responses[k])
    ensures r == Gather(outcomes)
    ensures forall k :: 0 <= k < 4 ==>
      Common.GetCachedData(cache, ItemDataUrls()[k]) == old(Common.GetCachedData(cache, ItemDataUrls()[k]))
    ensures cache != null ==>
      cache.entries == StoreMiss(StoreMiss(StoreMiss(StoreMiss(old(cache.entries), ItemsUrl, responses[0], str),
        ItemIdsUrl, responses[1], str), ItemInfoUrl, responses[2], str), TranslationUrl, responses[3], str)
  {
    var items := FetchItemFile(cache, ItemsUrl, responses[0], str);
    var itemIds := FetchItemFile(cache, ItemIdsUrl, responses[1], str);
    var itemInfo := FetchItemFile(cache, ItemInfoUrl, responses[2], str);
    var translation := FetchItemFile(cache, TranslationUrl, responses[3], str);
    outcomes := [items, itemIds, itemInfo, translation];
    r := Gather(outcomes);
  }
}
