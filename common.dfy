/** market_engine/common.py: the id lookup with its hash fallback, the optional cache, the cache
    keys of `fetch_api_data`, and the name fixing of downloaded price history. */
module Common {
  import opened Prelude
  import opened Dicts

  /** A day record of the price history: a JSON object, as ordered (key, value) pairs. */
  type Record = Dict<string, Json>

  /** `get_item_id`: the known id of the name, else the hex digest of its encoding; the digest is
      the parameter `hash`, so one name always gets one id. */
  function GetItemId(itemName: string, itemIds: Dict<string, string>, hash: string -> string): (r: string)
    ensures itemName in KeySet(itemIds) ==> Some(r) == Lookup(itemIds, itemName)
    ensures itemName !in KeySet(itemIds) ==> r == hash(itemName)
  {
    match Lookup(itemIds, itemName)
    case Some(id) => id
    case None => hash(itemName)
  }

  // ---------------------------------------------------------------------------
  // The cache

  /** The key-value store behind the cache: keys to stored text. */
  class Cache {
    var entries: map<string, string>

    constructor(entries: map<string, string>)
      ensures this.entries == entries
    {
      this.entries := entries;
    }
  }

  /** `get_cached_data`: nothing without a cache, else the stored text for `url`, if any. */
  function GetCachedData(cache: Cache?, url: string): (r: Option<string>)
    reads cache
    ensures cache == null ==> r == None
    ensures cache != null ==> (r.Some? <==> url in cache.entries) && (r.Some? ==> r.value == cache.entries[url])
  {
    if cache == null || url !in cache.entries then None else Some(cache.entries[url])
  }

  /** `set_cached_data`: nothing without a cache, else `data` is stored under `key`. */
  method SetCachedData(cache: Cache?, key: string, data: string)
    modifies cache
    ensures cache != null ==> cache.entries == old(cache.entries)[key := data]
  {
    if cache != null {
      cache.entries := cache.entries[key := data];
    }
  }

  /** The rate limiter, reduced to the number of tokens taken from it. */
  class RateLimiter {
    var acquired: nat

    constructor()
      ensures acquired == 0
    {
      acquired := 0;
    }
  }

  /** What `fetch_api_data` returns: the stored text on a cache hit, the response otherwise. */
  datatype Fetched<D> = Hit(cached: string) | Miss(data: D)

  /** `str(headers)` for a dict of strings: `{'k': 'v', ...}`. */
  function ReprHeaders(headers: Dict<string, string>): string {
    "{" + ReprItems(headers) + "}"
  }

  function ReprItems(headers: Dict<string, string>): string {
    if headers == [] then ""
    else
      var item := "'" + headers[0].0 + "': '" + headers[0].1 + "'";
      if |headers| == 1 then item else item + ", " + ReprItems(headers[1..])
  }

  /** The key `fetch_api_data` stores under: `f"{url}#{headers}"`, with headers defaulting to `{}`. */
  function CacheKey(url: string, headers: Option<Dict<string, string>>): (r: string)
    ensures |r| > |url| && r[..|url|] == url && r[|url|] == '#'
  {
    url + "#" + ReprHeaders(headers.GetOr([]))
  }

  /** The store key is never the lookup key. */
  lemma CacheKeyNotUrl(url: string, headers: Option<Dict<string, string>>)
    ensures CacheKey(url, headers) != url
  {
    assert |CacheKey(url, headers)| > |url|;
  }

  /** `fetch_api_data`: a cache hit on `url` returns the stored text and touches neither the
      limiter nor the network. On a miss a token is taken, the request's outcome `response` is
      used (its error raised), and `str(data)` is stored under `CacheKey(url, headers)`. */
  method FetchApiData<D>(cache: Cache?, url: string, headers: Option<Dict<string, string>>, rateLimiter: RateLimiter?,
                         response: Result<D>, str: D -> string) returns (r: Result<Fetched<D>>)
    modifies cache, rateLimiter
    ensures old(GetCachedData(cache, url)).Some? ==>
      r == Ok(Hit(old(GetCachedData(cache, url)).value)) && (cache != null ==> cache.entries == old(cache.entries))
      && (rateLimiter != null ==> rateLimiter.acquired == old(rateLimiter.acquired))
    ensures old(GetCachedData(cache, url)).None? ==>
      (rateLimiter != null ==> rateLimiter.acquired == old(rateLimiter.acquired) + 1)
      && (response.Err? ==> r == Err(response.error) && (cache != null ==> cache.entries == old(cache.entries)))
      && (response.Ok? ==> r == Ok(Miss(response.value))
                           && (cache != null ==> cache.entries == old(cache.entries)[CacheKey(url, headers) := str(response.value)]))
    ensures old(GetCachedData(cache, url)).None? ==> GetCachedData(cache, url).None?
  {
    var data := GetCachedData(cache, url);
    if data.Some? {
      return Ok(Hit(data.value));
    }
    if rateLimiter != null {
      rateLimiter.acquired := rateLimiter.acquired + 1;
    }
    if response.Err? {
      return Err(response.error);
    }
    CacheKeyNotUrl(url, headers);
    SetCachedData(cache, CacheKey(url, headers), str(response.value));
    r := Ok(Miss(response.value));
  }

  /** A store under `CacheKey` leaves a missing `url` missing: however often the same URL is
      fetched, its own writes never give a hit. */
  lemma OwnWriteNeverHits(entries: map<string, string>, url: string, headers: Option<Dict<string, string>>, text: string)
    requires url !in entries
    ensures url !in entries[CacheKey(url, headers) := text]
  {
    CacheKeyNotUrl(url, headers);
  }

  /** `fetch_api_data` as its documentation describes it: looking up and storing under the same
      key, `CacheKey(url, headers)`, so a fetched value is found by the next call. */
  method FetchApiDataCorrected<D>(cache: Cache?, url: string, headers: Option<Dict<string, string>>, rateLimiter: RateLimiter?,
                                  response: Result<D>, str: D -> string) returns (r: Result<Fetched<D>>)
    modifies cache, rateLimiter
    ensures old(GetCachedData(cache, CacheKey(url, headers))).Some? ==>
      r == Ok(Hit(old(GetCachedData(cache, CacheKey(url, headers))).value)) && (cache != null ==> cache.entries == old(cache.entries))
    ensures old(GetCachedData(cache, CacheKey(url, headers))).None? && response.Ok? ==>
      r == Ok(Miss(response.value)) && (cache != null ==> GetCachedData(cache, CacheKey(url, headers)) == Some(str(response.value)))
    ensures old(GetCachedData(cache, CacheKey(url, headers))).None? && response.Err? ==> r == Err(response.error)
  {
    var key := CacheKey(url, headers);
    var data := GetCachedData(cache, key);
    if data.Some? {
      return Ok(Hit(data.value));
    }
    if rateLimiter != null {
      rateLimiter.acquired := rateLimiter.acquired + 1;
    }
    if response.Err? {
      return Err(response.error);
    }
    SetCachedData(cache, key, str(response.value));
    r := Ok(Miss(response.value));
  }

  /** With the corrected keys a fetch followed by a fetch of the same URL and headers is a hit on
      the stored text, without a second request. */
  lemma CorrectedSecondFetchHits(entries: map<string, string>, url: string, headers: Option<Dict<string, string>>, text: string)
    ensures CacheKey(url, headers) in entries[CacheKey(url, headers) := text]
    ensures entries[CacheKey(url, headers) := text][CacheKey(url, headers)] == text
  {
  }

  // ---------------------------------------------------------------------------
  // fix_names_and_add_ids

  /** One application of the translation table: `translation_dict[name]` if present. */
  function Translate(translation: Dict<string, string>, name: string): string {
    match Lookup(translation, name)
    case Some(t) => t
    case None => name
  }

  /** The name after `n` applications: the loop rebinds `item_name`, so the day at index `j` sees
      the table applied `j + 1` times. */
  function TranslateN(translation: Dict<string, string>, name: string, n: nat): string {
    if n == 0 then name else Translate(translation, TranslateN(translation, name, n - 1))
  }

  /** A day record after the loop body: `order_type` defaults to "closed", `item_id` is set. */
  function FixDay(day: Record, name: string, itemIds: Dict<string, string>, hash: string -> string): Record {
    var typed := if "order_type" in KeySet(day) then day else Put(day, "order_type", JStr("closed"));
    Put(typed, "item_id", JStr(GetItemId(name, itemIds, hash)))
  }

  /** The days of one entry after the inner loop. */
  function FixDays(days: seq<Record>, name: string, translation: Dict<string, string>,
                   itemIds: Dict<string, string>, hash: string -> string): (r: seq<Record>)
    ensures |r| == |days|
  {
    seq(|days|, j requires 0 <= j < |days| => FixDay(days[j], TranslateN(translation, name, j + 1), itemIds, hash))
  }

  /** The whole price history after `fix_names_and_add_ids`: keys unchanged, days fixed in place. */
  function FixAll(data: Dict<string, seq<Record>>, translation: Dict<string, string>,
                  itemIds: Dict<string, string>, hash: string -> string): (r: Dict<string, seq<Record>>)
    ensures |r| == |data|
  {
    seq(|data|, i requires 0 <= i < |data| => (data[i].0, FixDays(data[i].1, data[i].0, translation, itemIds, hash)))
  }

  /** The inner loop of `fix_names_and_add_ids` over the days of one entry: the name is
      translated again before each day. */
  method FixEntryDays(days: seq<Record>, key: string, translation: Dict<string, string>,
                      itemIds: Dict<string, string>, hash: string -> string) returns (fixed: seq<Record>)
    ensures fixed == FixDays(days, key, translation, itemIds, hash)
  {
    var itemName := key;
    fixed := [];
    var j := 0;
    while j < |days|
      invariant 0 <= j <= |days|
      invariant itemName == TranslateN(translation, key, j)
      invariant fixed == FixDays(days, key, translation, itemIds, hash)[..j]
    {
      if itemName in KeySet(translation) {
        itemName := Lookup(translation, itemName).value;
      }
      FixDaysStep(days, key, translation, itemIds, hash, j);
      fixed := fixed + [FixDay(days[j], itemName, itemIds, hash)];
      j := j + 1;
    }
  }

  /** One step of the inner loop: the prefix of fixed days grows by the day fixed under the
      name translated once more. */
  lemma FixDaysStep(days: seq<Record>, key: string, translation: Dict<string, string>,
                    itemIds: Dict<string, string>, hash: string -> string, j: int)
    requires 0 <= j < |days|
    ensures FixDays(days, key, translation, itemIds, hash)[..j + 1] ==
      FixDays(days, key, translation, itemIds, hash)[..j] + [FixDay(days[j], TranslateN(translation, key, j + 1), itemIds, hash)]
  {
    var all := FixDays(days, key, translation, itemIds, hash);
    TakeSnoc(all, j);
    assert all[j] == FixDay(days[j], TranslateN(translation, key, j + 1), itemIds, hash);
  }

  /** `fix_names_and_add_ids`: every entry's days fixed, the entries kept in order. */
  method FixNamesAndAddIds(data: Dict<string, seq<Record>>, translation: Dict<string, string>,
                           itemIds: Dict<string, string>, hash: string -> string) returns (r: Dict<string, seq<Record>>)
    ensures r == FixAll(data, translation, itemIds, hash)
  {
    r := [];
    var i := 0;
    while i < |data|
      invariant 0 <= i <= |data|
      invariant r == FixAll(data, translation, itemIds, hash)[..i]
    {
      var fixed := FixEntryDays(data[i].1, data[i].0, translation, itemIds, hash);
      r := r + [(data[i].0, fixed)];
      i := i + 1;
    }
  }

  /** Every fixed day has an `item_id`, the id of its translated name, and an `order_type`: its
      own when it had one, else "closed"; no other key changes. */
  lemma FixDaySpec(day: Record, name: string, itemIds: Dict<string, string>, hash: string -> string)
    ensures Lookup(FixDay(day, name, itemIds, hash), "item_id") == Some(JStr(GetItemId(name, itemIds, hash)))
    ensures Lookup(FixDay(day, name, itemIds, hash), "order_type") ==
      if "order_type" in KeySet(day) then Lookup(day, "order_type") else Some(JStr("closed"))
    ensures forall k :: k != "item_id" && k != "order_type" ==> Lookup(FixDay(day, name, itemIds, hash), k) == Lookup(day, k)
    ensures KeySet(FixDay(day, name, itemIds, hash)) == KeySet(day) + {"item_id", "order_type"}
  {
  }

  /** After the loops every day of every entry has an `item_id` and an `order_type`, and the day
      at index `j` of entry `key` carries the id of `key` translated `j + 1` times. */
  lemma {:induction false} FixAllSpec(data: Dict<string, seq<Record>>, translation: Dict<string, string>,
                                      itemIds: Dict<string, string>, hash: string -> string, i: int, j: int)
    requires 0 <= i < |data| && 0 <= j < |data[i].1|
    ensures FixAll(data, translation, itemIds, hash)[i].0 == data[i].0
    ensures var day := FixAll(data, translation, itemIds, hash)[i].1[j];
      Lookup(day, "item_id") == Some(JStr(GetItemId(TranslateN(translation, data[i].0, j + 1), itemIds, hash)))
      && Lookup(day, "order_type").Some?
  {
    var name := TranslateN(translation, data[i].0, j + 1);
    var days := FixDays(data[i].1, data[i].0, translation, itemIds, hash);
    assert FixAll(data, translation, itemIds, hash)[i] == (data[i].0, days);
    FixDaysAt(data[i].1, data[i].0, translation, itemIds, hash, j);
    FixDaySpec(data[i].1[j], name, itemIds, hash);
  }

  lemma FixDaysAt(days: seq<Record>, name: string, translation: Dict<string, string>,
                  itemIds: Dict<string, string>, hash: string -> string, j: int)
    requires 0 <= j < |days|
    ensures FixDays(days, name, translation, itemIds, hash)[j] == FixDay(days[j], TranslateN(translation, name, j + 1), itemIds, hash)
  {
  }

  /** When no translation target is itself translated, every day of an entry gets one id, that of
      the name translated once. */
  lemma {:induction false} NoChainOneName(translation: Dict<string, string>, name: string, n: nat)
    requires forall k :: k in KeySet(translation) ==> Translate(translation, k) !in KeySet(translation)
    requires n >= 1
    ensures TranslateN(translation, name, n) == Translate(translation, name)
  {
    if n > 1 {
      NoChainOneName(translation, name, n - 1);
      var t := Translate(translation, name);
      if name in KeySet(translation) {
        assert t !in KeySet(translation);
      } else {
        assert t == name;
      }
    }
  }

  /** With a chain A to B to C, where C is not translated, the first day gets B's id and every
      later day C's. */
  lemma {:induction false} ChainReachesEnd(translation: Dict<string, string>, a: string, b: string, c: string, n: nat)
    requires Lookup(translation, a) == Some(b) && Lookup(translation, b) == Some(c)
    requires c !in KeySet(translation)
    requires n >= 2
    ensures TranslateN(translation, a, 1) == b
    ensures TranslateN(translation, a, n) == c
  {
    if n > 2 {
      ChainReachesEnd(translation, a, b, c, n - 1);
    }
  }
}
