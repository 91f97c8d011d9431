# MarketEngine core, modelled in Dafny

MarketEngine is a Warframe market toolkit. It resolves free-text item names to catalogue items
with a fuzzy matcher. It parses the order books and profiles of warframe.market. It normalises
the 90-day price statistics into per-day, per-item buckets and saves them. It repairs the
truncated LZMA manifest index, and it keeps an in-memory catalogue and user table over a
database. The repository carries several near-duplicate copies of these algorithms. Each copy
is modelled as it stands, with its own thresholds, exception lists and defaults.

The modules are:

- `Prelude`, `Text`, `Dicts`: the Python values the code works on. `Option`/`Result`, scores in
  0..100 and JSON values come first. Then `str.split`, `join`, `lower` and `endswith`. Last, dicts
  as association lists that keep insertion order, where assigning an existing key overwrites it
  in place.
- `Fuzzy`: the resolver pieces shared by market_engine/modules/Models/MarketDatabase.py and
  market_engine/modules/MarketData.py. These are `remove_blueprint`, `closest_common_word`,
  `remove_common_words`, `replace_aliases`, the first-maximum scan of `find_best_match` and the
  `> 50` gate.
- `ModelsMarketDatabase`: the database-backed resolver. Its `MarketDatabase` class holds the
  tables as fields; it covers catalogue grouping, word aliases, alias add/remove with the
  catalogue refresh, and `update_usernames`.
- `EngineMarketData`, `Grouping`, `Orders`: market_engine/modules/MarketData.py. This covers the
  hard-coded alias map, `_get_all_items`, `create_filters`, `apply_filter` and `filter_orders`. It
  also covers `MarketItem.parse_orders`, a stable sort and a partition into buckets, and
  `MarketUser`'s order, review and profile handling.
- `UserData`, `ModelsMarketUser`: market_engine/modules/Models/MarketUser.py. This covers
  `set_user_data`, `parse_orders`, `parse_reviews` and the None paths of `fetch_user_data`.
- `LegacyMarketData`: modules/MarketData.py, the oldest resolver and order filter.
- `Common`: market_engine/common.py. This covers `get_item_id`, the cache as a map, the cache keys
  of `fetch_api_data`, and `fix_names_and_add_ids`.
- `PriceHistory`, `MarketApi`: market_engine/modules/API/MarketAPI.py. This covers the per-item
  loop of `process_price_history`, `parse_item_info`, `build_item_ids` and `save_price_history`,
  with the file system as a map in a `FileStore` object.
- `LegacyMarketApi`: modules/MarketAPI.py. This covers the manifest key, the history link filter,
  the in-memory part of `build_item_ids` and `save_price_history`.
- `ManifestApi`: `decompress_lzma` and `fix`. These are in market_engine/modules/API/ManifestAPI.py,
  and an identical copy is in modules/MarketAPI.py.
- `RelicsRunApi`: both RelicsRunAPI.py files. This covers the `fix_names_and_add_ids` variant
  without the `order_type` default, the remote and saved listings, the dates still to fetch, and
  the order of the catalogue downloads.

Foreign functions are parameters of the model:

- `fuzz.ratio` is any function into 0..100;
- `hashlib.md5` is a `hash` function on names;
- `uuid4` is a `newId` function of a counter;
- the LZMA decompressor is a frame decoder that yields either an error or (output, unused bytes,
  end-of-stream flag);
- BeautifulSoup's anchors are a list of optional `href` values.

Python exceptions are `Err` values named after the exception (`KeyError`, `IndexError`,
`ValueError`, `AttributeError`, `TypeError`, `LZMAError`).

## Model

| member | source | states |
|---|---|---|
| Fuzzy.ClosestCommonWord | market_engine/modules/Models/MarketDatabase.py:16-23 | A word is returned exactly when some common word has a positive ratio that reaches the threshold; it is a common word with the highest ratio, whatever order the set is scanned in |
| Fuzzy.RemoveBlueprint | market_engine/modules/Models/MarketDatabase.py:38-42 | A lone "blueprint" raises IndexError; a final "blueprint" after a word other than prime, wraith or vandal is dropped and the remaining lower-cased words are joined by single spaces; any other text comes back lower-cased |
| Fuzzy.KeptAppend | market_engine/modules/Models/MarketDatabase.py:33-34 | The word filter distributes over concatenation, so the surviving words keep their original order |
| Fuzzy.KeptMembers | market_engine/modules/Models/MarketDatabase.py:30-34 | A word survives exactly when its best ratio to a common word is not a positive score of at least 80, or it is "primed" |
| Fuzzy.RemoveCommonWords | market_engine/modules/Models/MarketDatabase.py:26-35 | Blueprint removal's error is passed on; otherwise the result is the space-joined surviving words of the stripped name |
| Fuzzy.FirstAlias | market_engine/modules/Models/MarketDatabase.py:50-53 | A replacement exists exactly when some alias reaches the threshold, and it is the target of the first such alias in dict order |
| Fuzzy.FirstAliasAt | market_engine/modules/Models/MarketDatabase.py:50-53 | The alias at which the inner loop breaks is the one the first-match definition picks |
| Fuzzy.ReplaceAliases | market_engine/modules/Models/MarketDatabase.py:45-57 | One output word per input word: the target of the word's first matching alias, or the word itself |
| Fuzzy.CleanAllSpec | market_engine/modules/Models/MarketDatabase.py:69 | The cleaned names of an entry are each name's cleaning, in order; if one raises, the first raising name's error is the entry's error |
| Fuzzy.MaxRatio | market_engine/modules/Models/MarketDatabase.py:70 | The maximum is the ratio of one of the names, and no name's ratio exceeds it |
| Fuzzy.ItemMaxScore | market_engine/modules/Models/MarketDatabase.py:69-70 | The entry's score is the best ratio over its cleaned names; a cleaning error, or an entry with no names (ValueError from `max`), raises |
| Fuzzy.ScanCatalog | market_engine/modules/Models/MarketDatabase.py:68-77 | The scan raises the error of the first reached entry that raises; otherwise its score bounds every entry's score, it is 0 exactly when no entry is returned, and the entry returned is the first one to reach that score, with the scan stopped at a score of 100 |
| Fuzzy.BestMatchUnique | market_engine/modules/Models/MarketDatabase.py:60-77 | The scan's outcome is determined by the catalog and its scores alone |
| Fuzzy.GateSpec | market_engine/modules/Models/MarketDatabase.py:246-249 | An item is accepted exactly when some entry scores above 50, and then it is an entry with the highest score |
| ModelsMarketDatabase.AllItemsQuery | market_engine/modules/Models/MarketDatabase.py:92-97 | One row per item, carrying the item and its aliases joined with commas, the aliases in alias-table order, or null when it has none; the join is not cut at any length (see "## Left out") |
| ModelsMarketDatabase.GetAllItems | market_engine/modules/Models/MarketDatabase.py:175-187 | One dict per row, in row order; `aliases` is the comma split of the column, or [] when it is null |
| ModelsMarketDatabase.AliasesOfFrom | market_engine/modules/Models/MarketDatabase.py:95-97 | Every alias collected for an item is a row of the alias table for that item |
| ModelsMarketDatabase.CatalogAliases | market_engine/modules/Models/MarketDatabase.py:175-187 | Each catalog entry carries its item's id and name and exactly the aliases the alias table holds for it, in table order, given comma-free aliases and an untruncated `GROUP_CONCAT` |
| ModelsMarketDatabase.AliasesOfAdd | market_engine/modules/Models/MarketDatabase.py:257-259 | Inserting an alias row appends the alias to its own item's aliases and changes no other item |
| ModelsMarketDatabase.DeleteAlias | market_engine/modules/Models/MarketDatabase.py:261-263 | The delete keeps exactly the rows other than the given (item, alias) pair |
| ModelsMarketDatabase.AliasesOfDelete | market_engine/modules/Models/MarketDatabase.py:261-263 | After the delete the item no longer has the alias, and every other alias of every item stays |
| ModelsMarketDatabase.DeletePlain | market_engine/modules/Models/MarketDatabase.py:261-263 | A hypothesis lemma, not a requirement of the database: when every alias is non-empty and free of commas, the delete keeps it so |
| ModelsMarketDatabase.AddPlain | market_engine/modules/Models/MarketDatabase.py:257-259 | Inserting a non-empty, comma-free alias keeps every alias non-empty and free of commas |
| ModelsMarketDatabase.CommaAliasSplits | market_engine/modules/Models/MarketDatabase.py:175-187 | An alias holding a comma, once stored, comes back from the catalog as two aliases: the comma-free hypothesis of CatalogAliases cannot be dropped |
| ModelsMarketDatabase.FindBestMatch | market_engine/modules/Models/MarketDatabase.py:60-77 | The query is alias-replaced and cleaned (its error passed on), and the result is the best match of the catalog scan |
| ModelsMarketDatabase.Stamp | market_engine/modules/Models/MarketDatabase.py:288 | One history row per change, in the same order, all carrying the same time |
| ModelsMarketDatabase.CollectChanges | market_engine/modules/Models/MarketDatabase.py:279-288 | The upsert rows are the pending names of users absent from the store or stored under another name; the history rows match them one to one |
| ModelsMarketDatabase.UpsertAllLookup | market_engine/modules/Models/MarketDatabase.py:115-119 | After the batched upsert a user holds the name of their last row, or keeps the stored one when they have no row; distinct keys stay distinct |
| ModelsMarketDatabase.ChangesLastValue | market_engine/modules/Models/MarketDatabase.py:279-288 | A user's last upsert row carries the pending name exactly when that name differs from the stored one |
| ModelsMarketDatabase.UpdatedStore | market_engine/modules/Models/MarketDatabase.py:268-295 | After the update the store holds every pending name, and every user without a pending name keeps the stored one |
| ModelsMarketDatabase.ChangesMembers | market_engine/modules/Models/MarketDatabase.py:284-288 | A pending pair gets an upsert row exactly when the store does not already hold that name for the user |
| ModelsMarketDatabase.MarketDatabase.constructor | market_engine/modules/Models/MarketDatabase.py:148-155 | Connecting, over any alias table, loads the catalog from the tables and leaves no pending names |
| ModelsMarketDatabase.MarketDatabase.GetWordAliases | market_engine/modules/Models/MarketDatabase.py:254-255 | One entry per alias, holding the word of the alias's last row, the aliases in the order they first appear in the table, which is the order `replace_aliases` tries them in |
| ModelsMarketDatabase.MarketDatabase.GetFuzzyItem | market_engine/modules/Models/MarketDatabase.py:246-249 | The query is cleaned with the database's word aliases; the item returned is the accepted outcome of the scan, with a score above 50 |
| ModelsMarketDatabase.MarketDatabase.AddItemAlias | market_engine/modules/Models/MarketDatabase.py:257-259 | Any alias, empty or holding a comma included, is appended as a row and the catalog is reloaded from the tables; nothing else changes |
| ModelsMarketDatabase.MarketDatabase.RemoveItemAlias | market_engine/modules/Models/MarketDatabase.py:261-263 | The matching rows are deleted and the catalog is reloaded; nothing else changes |
| ModelsMarketDatabase.MarketDatabase.AddWordAlias | market_engine/modules/Models/MarketDatabase.py:265-266 | A (alias, word) row is appended to the word-alias table; nothing else changes |
| ModelsMarketDatabase.MarketDatabase.UpdateUsernames | market_engine/modules/Models/MarketDatabase.py:268-295 | The pending names are cleared; the store gets the changed names upserted, and the history gets one row per change with the same time; the catalog is untouched |
| Grouping.FirstBySpec | market_engine/modules/MarketData.py:172-180 | The grouped entries have distinct ids, every row's id has an entry, and each entry is the first row of its id |
| Grouping.FirstByOrder | market_engine/modules/MarketData.py:172-180 | The entries come in order of first appearance: a row of an earlier entry's id precedes every row of a later entry's id |
| EngineMarketData.GetAllItems | market_engine/modules/MarketData.py:169-182 | The loop over the rows builds the catalog: the first row of every id, in order of first appearance |
| EngineMarketData.CatalogDistinct | market_engine/modules/MarketData.py:172-180 | The catalog has one entry per id |
| EngineMarketData.CatalogCovers | market_engine/modules/MarketData.py:172-180 | Every id of the rows has an entry |
| EngineMarketData.CatalogFirstRow | market_engine/modules/MarketData.py:174-176 | Every entry is made from the first row of its id; later rows change nothing in it |
| EngineMarketData.FindBestMatch | market_engine/modules/MarketData.py:95-113 | The query is rewritten with the fixed aliases head→neuroptics and taserman→volt and cleaned (its error passed on); the result is the catalog scan's best match |
| EngineMarketData.ScoreOfName | market_engine/modules/MarketData.py:47-48 | Entries carry no aliases, so an entry is scored on its own cleaned name alone |
| EngineMarketData.MarketDatabase.constructor | market_engine/modules/MarketData.py:161-167 | Connecting loads the catalog from the rows |
| EngineMarketData.MarketDatabase.GetFuzzyItem | market_engine/modules/MarketData.py:225-228 | The item returned is the accepted outcome of the scan, with a score above 50 |
| EngineMarketData.CreateFilters | market_engine/modules/MarketData.py:328-339 | The loop builds the `filters` and `mode` dicts of the partition |
| EngineMarketData.ModeKey | market_engine/modules/MarketData.py:333-334 | A key ends in `_mode` and names a field exactly when it is that field followed by `_mode` |
| EngineMarketData.CreateFiltersSpec | market_engine/modules/MarketData.py:328-339 | Nothing is lost: a key not ending in `_mode` is a filter with its argument's value, and a field's mode is the value of `<field>_mode` |
| EngineMarketData.ApplyFilter | market_engine/modules/MarketData.py:373-392 | A None filter passes; a string filter is a one-element list; int values use `>` for greater, `<` for less and `==` otherwise; other values use not-in for blacklist and in otherwise; ordering an int against a list raises TypeError |
| EngineMarketData.AllFilters | market_engine/modules/MarketData.py:396-397 | An order passes exactly when every filter accepts it; `all` raises exactly when the first filter that does not accept the order raises, and the error is that filter's |
| EngineMarketData.MarketItem.constructor | market_engine/modules/MarketData.py:293-302 | The item keeps its columns, derives its thumb and item URLs and starts with empty buckets |
| EngineMarketData.MarketItem.Side | market_engine/modules/MarketData.py:394 | Only "buy" and "sell" name a bucket; any other order type raises KeyError |
| EngineMarketData.MarketItem.FilterOrders | market_engine/modules/MarketData.py:364-399 | The result is the first `num_orders` orders of the bucket that pass every filter, in bucket order: the comprehension, then `[:num_orders]`; so at most `num_orders`, all from the bucket, and every passing order when there is room; an unknown bucket raises KeyError; the first order whose filters raise decides the error; the defaults (sell side, five orders, no filters, no modes) are FilterDefaults |
| EngineMarketData.MarketItem.ParseOrders | market_engine/modules/MarketData.py:401-429 | Both buckets are replaced by the orders of their type, `sell` sorted ascending and `buy` descending; the users handed on map every user id to a name; an order of another type raises KeyError with the earlier orders routed |
| EngineMarketData.ParseStep | market_engine/modules/MarketData.py:405-424 | One more order extends the bucket of its type and the users dict by that order |
| EngineMarketData.ParsedUsers | market_engine/modules/MarketData.py:403-408 | The users dict holds every user id of the orders once, with the name of that user's last order |
| EngineMarketData.UserPairsLast | market_engine/modules/MarketData.py:408 | A user id has a last name exactly when some order has that id, and it is the name of its last order |
| EngineMarketData.MarketUser.constructor | market_engine/modules/MarketData.py:447-464 | A fresh user has the identity attributes, the profile URL, None for every other attribute and no orders or reviews |
| EngineMarketData.MarketUser.FetchUserData | market_engine/modules/MarketData.py:482-495 | No response, or a `null` body, changes nothing; a missing key raises KeyError and a non-object TypeError; otherwise the profile keys that name attributes are copied and `avatar_url` is derived |
| EngineMarketData.MarketUser.ParseOrders | market_engine/modules/MarketData.py:497-517 | Both sides are replaced: `sell_orders` fill `sell`, then `buy_orders` fill `buy`, in input order; a missing list raises KeyError after the lists before it |
| EngineMarketData.MarketUser.ParseReviews | market_engine/modules/MarketData.py:519-531 | Each parsed review not already present is appended |
| Orders.ParsedSubtype | market_engine/modules/MarketData.py:418-422 | Without a mod rank the subtype is the order's own; a mod rank overrides it with "R" followed by the rank (its digits stated for a non-negative rank) |
| Orders.StrLessIrreflexive | market_engine/modules/MarketData.py:427 | Python's string order is irreflexive |
| Orders.StrLessTransitive | market_engine/modules/MarketData.py:427 | Python's string order is transitive |
| Orders.StrLessTotal | market_engine/modules/MarketData.py:427 | Any two different strings are ordered one way or the other |
| Orders.BeforeIrreflexive | market_engine/modules/MarketData.py:426-427 | No order sorts before itself |
| Orders.BeforeTransitive | market_engine/modules/MarketData.py:426-427 | The key order is transitive, in both directions |
| Orders.BeforeAsymmetric | market_engine/modules/MarketData.py:426-427 | Two orders never sort before each other |
| Orders.SameKeyNotBefore | market_engine/modules/MarketData.py:427 | Orders with the same (price, last_update) key do not sort before each other |
| Orders.BeforeTotal | market_engine/modules/MarketData.py:426-427 | Two orders neither of which sorts before the other have the same key |
| Orders.InsertPerm | market_engine/modules/MarketData.py:427 | Inserting adds exactly the new order |
| Orders.InsertSorted | market_engine/modules/MarketData.py:427 | Inserting into a sorted list keeps it sorted |
| Orders.InsertStable | market_engine/modules/MarketData.py:427 | Inserting keeps the orders of every key in place and puts the new order after those of its own key |
| Orders.SortPerm | market_engine/modules/MarketData.py:426-427 | The sort is a permutation of its input |
| Orders.SortSorted | market_engine/modules/MarketData.py:426-427 | The output is ordered by (price, last_update), ascending, or descending for `reverse` |
| Orders.SortStable | market_engine/modules/MarketData.py:426-427 | The sort is stable: the orders of each key keep their input order, also with `reverse` |
| Orders.RoutePartition | market_engine/modules/MarketData.py:405-424 | When every order names a bucket, the two buckets together hold every parsed order exactly once |
| Orders.RouteMembers | market_engine/modules/MarketData.py:424 | An order is in the bucket of its own type |
| Orders.RouteStep | modules/MarketData.py:228-245 | One more order extends the bucket of its type, and only when it has one |
| UserData.ParseUserOrder | market_engine/modules/Models/MarketUser.py:74-87 | The price is the order's platinum and the item its name and id; a mod rank overrides the subtype with "R" followed by the rank |
| UserData.ParseAll | market_engine/modules/Models/MarketUser.py:73-89 | One parsed order per input order, in input order |
| UserData.AppendParsed | market_engine/modules/Models/MarketUser.py:73-89 | The loop appends each parsed order to the side, unsorted |
| UserData.AppendUnseen | market_engine/modules/Models/MarketUser.py:91-103 | The loop appends, in order, each parsed review not already present |
| UserData.UnseenSpec | market_engine/modules/Models/MarketUser.py:91-103 | The existing reviews stay first and in place; the result holds exactly the existing and the new reviews; no review is added twice |
| UserData.UnseenIdempotent | market_engine/modules/Models/MarketUser.py:102-103 | Parsing the same reviews a second time changes nothing |
| UserData.UnseenAllPresent | market_engine/modules/Models/MarketUser.py:102-103 | Reviews that are all present already add nothing |
| UserData.InitialAttributes | market_engine/modules/Models/MarketUser.py:6-21 | A fresh user's attributes have distinct names |
| UserData.CopyAttributes | market_engine/modules/Models/MarketUser.py:62-64 | The loop applies `setattr` for every profile key that names an attribute |
| UserData.CopiedSpec | market_engine/modules/Models/MarketUser.py:62-64 | The copy adds no attribute; an attribute named in the profile takes the value of its last profile entry, any other keeps its value |
| UserData.WithAvatarUrlSpec | market_engine/modules/Models/MarketUser.py:66-67 | `avatar_url` becomes the asset URL followed by the avatar exactly when the avatar is not None; nothing else changes |
| UserData.ProfileOf | market_engine/modules/Models/MarketUser.py:55 | A profile is found only inside an object `payload` of an object response |
| ModelsMarketUser.FetchUserData | market_engine/modules/Models/MarketUser.py:47-59 | No response, a `null` body, a missing `payload` or `profile` key, or a `null` profile gives None; subscripting a non-object raises TypeError; otherwise the profile, never `null` |
| ModelsMarketUser.MarketUser.constructor | market_engine/modules/Models/MarketUser.py:6-23 | A fresh user has the identity attributes, the profile URL, None for every other attribute and no orders or reviews |
| ModelsMarketUser.MarketUser.SetUserData | market_engine/modules/Models/MarketUser.py:61-67 | The profile keys that name attributes are copied and `avatar_url` is derived; a profile that is not an object raises AttributeError and changes nothing |
| ModelsMarketUser.MarketUser.ParseOrders | market_engine/modules/Models/MarketUser.py:69-89 | Both sides are replaced: `sell_orders` fill `sell`, then `buy_orders` fill `buy`, in input order; a missing list raises KeyError |
| ModelsMarketUser.MarketUser.ParseReviews | market_engine/modules/Models/MarketUser.py:91-103 | Each parsed review not already present is appended; nothing else changes |
| ModelsMarketUser.Create | market_engine/modules/Models/MarketUser.py:26-34 | With the profile fetch asked for, a fetched profile is set on the new user and a TypeError propagates; no profile or a `null` one is skipped; otherwise the user keeps its initial attributes |
| LegacyMarketData.RemoveBlueprint | modules/MarketData.py:67-71 | A final "blueprint" is dropped unless the word before it is "prime"; a lone "blueprint" gives the empty string without error |
| LegacyMarketData.RemoveCommonWords | modules/MarketData.py:58-64 | The result is the space-joined words of the stripped name that resemble no common word |
| LegacyMarketData.KeptMembers | modules/MarketData.py:63 | A word survives exactly when it resembles no common word; nothing is exempt |
| LegacyMarketData.KeptAppend | modules/MarketData.py:63 | The survivors keep their original order |
| LegacyMarketData.PrimedDropped | modules/MarketData.py:63 | A "primed" resembling a common word is dropped here but kept by the newer resolver |
| LegacyMarketData.GetAllItems | modules/MarketData.py:122-135 | The catalog is the first row of every id, in order of first appearance, without aliases |
| LegacyMarketData.CatalogDistinct | modules/MarketData.py:125-133 | The catalog has one entry per id |
| LegacyMarketData.CatalogCovers | modules/MarketData.py:125-133 | Every id of the rows has an entry |
| LegacyMarketData.CatalogFirstRow | modules/MarketData.py:127-129 | Every entry is made from the first row of its id |
| LegacyMarketData.ItemScoreSpec | modules/MarketData.py:81-82 | An entry's score is the ratio of its best-matching cleaned name; only an entry without names raises, with ValueError |
| LegacyMarketData.ScanCatalog | modules/MarketData.py:80-89 | The scan returns the first entry reaching the best score, with strict `>` and a stop at 100 |
| LegacyMarketData.FindBestMatch | modules/MarketData.py:74-89 | The query is cleaned without alias substitution, and the result is the catalog scan's best match |
| LegacyMarketData.ScoreOfName | modules/MarketData.py:81-82 | An entry is scored on its own cleaned name alone, so the scan never raises |
| LegacyMarketData.MarketDatabase.constructor | modules/MarketData.py:114-120 | Connecting loads the catalog from the rows |
| LegacyMarketData.MarketDatabase.GetFuzzyItem | modules/MarketData.py:161-164 | The item returned is the accepted outcome of the scan, with a score above 50 |
| LegacyMarketData.OnlineStep | modules/MarketData.py:218-219 | With `only_online`, exactly the in-game orders remain; otherwise all |
| LegacyMarketData.SubtypeStep | modules/MarketData.py:221-222 | With a subtype, exactly the orders of that subtype remain; an order lacking one raises KeyError |
| LegacyMarketData.MarketItem.constructor | modules/MarketData.py:200-211 | The item keeps its columns, derives its URLs and starts with empty buckets |
| LegacyMarketData.MarketItem.Side | modules/MarketData.py:216 | Only "buy" and "sell" name a bucket |
| LegacyMarketData.MarketItem.FilterOrders | modules/MarketData.py:213-224 | The result is the first `num_orders` orders of the bucket that are online when asked and of the subtype when given, in bucket order: one comprehension with the test Wanted, then `[:num_orders]`; an unknown bucket, or an order without a subtype under a subtype filter, raises KeyError; the defaults (sell side, five orders, online only, any subtype) are FilterDefaults |
| LegacyMarketData.FilterSteps | modules/MarketData.py:216-222 | The two filters in a row, online then subtype, keep exactly what one comprehension with the test Wanted keeps, raising the same KeyError |
| LegacyMarketData.MarketItem.ParseOrders | modules/MarketData.py:226-248 | Both buckets are replaced by the orders of their type, `sell` sorted ascending and `buy` descending; an order of another type raises KeyError with the earlier orders routed |
| Common.GetItemId | market_engine/common.py:43-47 | A known name gives its id; an unknown one gives the hash of the name, so one name always gets one id |
| Common.Cache.constructor | market_engine/common.py:50-66 | The cache starts with the given entries |
| Common.GetCachedData | market_engine/common.py:50-59 | No cache gives None; otherwise the stored text for the URL exactly when the URL is stored |
| Common.SetCachedData | market_engine/common.py:62-66 | With a cache, the text is stored under the key and every other entry stays; without one nothing changes |
| Common.RateLimiter.constructor | market_engine/common.py:72 | The limiter starts with no token taken |
| Common.CacheKey | market_engine/common.py:117-118 | The store key is the URL followed by "#" and the headers' text, which default to {} |
| Common.CacheKeyNotUrl | market_engine/common.py:112 | The store key never equals the lookup key |
| Common.FetchApiData | market_engine/common.py:111-133 | A hit returns the cached text and leaves the cache and the limiter alone; a miss takes one token, raises the request's error or stores the response's text under the store key, and leaves the URL itself uncached |
| Common.OwnWriteNeverHits | market_engine/common.py:112 | A store under the store key leaves a missing URL missing, so the function's own writes never give a later hit |
| Common.FetchApiDataCorrected | market_engine/common.py:111-133 | Looking up and storing under the same key: a miss stores the response's text where the next call finds it |
| Common.CorrectedSecondFetchHits | market_engine/common.py:131 | With one key for lookup and store, a fetch stores text that the next fetch of the same URL and headers finds |
| Common.FixDays | market_engine/common.py:148-155 | One fixed day per day, in order |
| Common.FixAll | market_engine/common.py:146-155 | One entry per entry, keys unchanged |
| Common.FixEntryDays | market_engine/common.py:148-155 | The inner loop yields the days fixed under the name translated once more before each day |
| Common.FixNamesAndAddIds | market_engine/common.py:146-155 | Every entry's days are fixed in place, the entries kept in order |
| Common.FixDaySpec | market_engine/common.py:152-155 | A fixed day has the id of its translated name and an `order_type`: its own when it had one, else lower-case "closed"; no other key changes |
| Common.FixAllSpec | market_engine/common.py:146-155 | After the loops the day at index j of an entry has the id of the entry's name translated j + 1 times, and an `order_type` |
| Common.NoChainOneName | market_engine/common.py:149-150 | When no translation target is itself translated, every day of an entry gets the id of the name translated once |
| Common.ChainReachesEnd | market_engine/common.py:149-150 | With a chain A→B→C, the first day of A gets B's id and every later day C's |
| PriceHistory.AddRecordBucket | market_engine/modules/API/MarketAPI.py:96 | Appending a record reaches exactly one bucket, that of its date and name, at its end |
| PriceHistory.DayOutcomeErrors | market_engine/modules/API/MarketAPI.py:86-91 | A record without `datetime`, or whose translated name has no id, raises KeyError: `item_ids` has no fallback |
| PriceHistory.DayOutcomeRecord | market_engine/modules/API/MarketAPI.py:87-94 | The bucket's name is the item name translated once; the record gets that name's id and an `order_type`: its own when it had one, else capitalised "Closed"; the copy at modules/MarketAPI.py:257-267 is the same |
| PriceHistory.DayOutcomeDate | market_engine/modules/API/MarketAPI.py:86 | The bucket's date is the datetime text before its first "T", or all of it when it has none |
| PriceHistory.FoldConcat | market_engine/modules/API/MarketAPI.py:84-96 | Appending two runs of records one after the other is appending their concatenation |
| PriceHistory.ProcessError | market_engine/modules/API/MarketAPI.py:84-96 | Processing stops with an error exactly when some record fails |
| PriceHistory.ProcessBuckets | market_engine/modules/API/MarketAPI.py:84-96 | When no record fails, every bucket grows by exactly the records that land in it, in their order |
| PriceHistory.LandingAppend | market_engine/modules/API/MarketAPI.py:84 | The records of the closed series land in each bucket before those of the live series |
| PriceHistory.ProcessRest | market_engine/modules/API/MarketAPI.py:84-96 | Once a record has raised, later records change nothing |
| PriceHistory.ProcessConcat | market_engine/modules/API/MarketAPI.py:84 | The live series starts where the closed series stopped, and runs only if the closed series did not fail |
| PriceHistory.FillConcat | market_engine/modules/API/MarketAPI.py:84-96 | The buckets after two runs of appends are those after their concatenation |
| PriceHistory.PriceHistoryDict.constructor | market_engine/modules/API/MarketAPI.py:75 | The nested defaultdict starts empty |
| PriceHistory.PriceHistoryDict.Append | market_engine/modules/API/MarketAPI.py:96 | The record is appended to the bucket of its date and name |
| PriceHistory.PriceHistoryDict.AppendSeries | market_engine/modules/API/MarketAPI.py:85-96 | The buckets gain the records processed before the first failing one, whose error is raised |
| PriceHistory.PriceHistoryDict.ProcessItem | market_engine/modules/API/MarketAPI.py:84-96 | The closed series, then the live series, each record updated and appended; the first failing record raises with the records before it appended; the copy at modules/MarketAPI.py:255-267 is the same |
| PriceHistory.FileStore.constructor | market_engine/modules/API/MarketAPI.py:135 | The file system starts with the given files |
| PriceHistory.DayPathInjective | market_engine/modules/API/MarketAPI.py:134 | Different days of one run go to different files |
| PriceHistory.SaveAllKeeps | market_engine/modules/API/MarketAPI.py:135-137 | Saving never rewrites an existing file |
| PriceHistory.SaveAllWrites | market_engine/modules/API/MarketAPI.py:133-137 | After saving, every day has its file |
| PriceHistory.SaveAllOnly | market_engine/modules/API/MarketAPI.py:133-137 | Saving creates no file but those of the days |
| PriceHistory.SaveAllContents | market_engine/modules/API/MarketAPI.py:133-137 | A day whose file did not exist has its own history written there |
| PriceHistory.SaveDays | market_engine/modules/API/MarketAPI.py:133-137 | The loop writes each day's file only when it does not exist yet |
| MarketApi.ParseItemInfo | market_engine/modules/API/MarketAPI.py:48-68 | The loop over the set's entries yields the parsed information, or the KeyError, TypeError of the first entry that raises |
| MarketApi.FirstErrorRest | market_engine/modules/API/MarketAPI.py:51-63 | Once an entry has raised, later entries do not matter |
| MarketApi.OtherIdsSpec | market_engine/modules/API/MarketAPI.py:51-63 | The set items are exactly the ids of the entries that are not the item itself, and never its own id |
| MarketApi.NoOwnEntryDefaults | market_engine/modules/API/MarketAPI.py:49 | Without an entry for the item itself, a field keeps its default |
| MarketApi.ItemInfoSpec | market_engine/modules/API/MarketAPI.py:49-63 | The parsed `item_id` is the input id, and it is never among the set items |
| MarketApi.ItemInfoDefaults | market_engine/modules/API/MarketAPI.py:49-66 | When the set has no entry for the item itself, `tags` is [], `mod_max_rank` None, `subtypes` [] and `set_items` is emptied, there being no truthy `set_root` |
| MarketApi.ProcessItemStatistics | market_engine/modules/API/MarketAPI.py:78-96 | A parse error raises before any record is touched; otherwise the item's information is recorded under its id and its closed and live series are processed |
| MarketApi.NameIdPairs | market_engine/modules/API/MarketAPI.py:112-113 | One (name, id) pair per listed item, in order |
| MarketApi.BuildItemIds | market_engine/modules/API/MarketAPI.py:110-115 | One entry per name, holding the id of the name's last listing, so a later duplicate overwrites an earlier one |
| MarketApi.ItemIdsSpec | market_engine/modules/API/MarketAPI.py:110-115 | Every listed name has an id, that of its last listing, and no other name has one |
| MarketApi.SavePriceHistory | market_engine/modules/API/MarketAPI.py:126-137 | Every day not yet on disk is written to its own file; existing files stay |
| MarketApi.SavePathSpec | market_engine/modules/API/MarketAPI.py:128-134 | A day's file is `directory/price_history_<day>.json` for pc, with `/<platform>` inserted after the directory otherwise |
| ManifestApi.Outputs | market_engine/modules/API/ManifestAPI.py:18 | One output per decoded frame, in order |
| ManifestApi.PrependPrepend | market_engine/modules/API/ManifestAPI.py:24 | Joining earlier outputs in two steps is joining them in one |
| ManifestApi.ConcatCons | market_engine/modules/API/ManifestAPI.py:24 | Joining a first output in front of the rest is putting it before their join |
| ManifestApi.ChainOutcome | market_engine/modules/API/ManifestAPI.py:7-24 | Along a chain of frames: no leftover bytes gives all outputs joined; leftover bytes that do not decode give the outputs so far; leftover bytes after a frame that missed its end-of-stream marker raise |
| ManifestApi.FirstFrameError | market_engine/modules/API/ManifestAPI.py:13-17 | A failure of the first decompressor is raised |
| ManifestApi.DecompressLzma | market_engine/modules/API/ManifestAPI.py:7-24 | The loop returns exactly the frame-by-frame decoding of its input, error included; the copy at modules/MarketAPI.py:61-78 is the same |
| ManifestApi.LargestDecodable | market_engine/modules/API/ManifestAPI.py:30-39 | The length settled on never exceeds the starting length |
| ManifestApi.LargestDecodableSpec | market_engine/modules/API/ManifestAPI.py:30-39 | The prefix settled on decodes, every longer prefix raises, and a buffer that decodes whole is not trimmed |
| ManifestApi.Fix | market_engine/modules/API/ManifestAPI.py:27-41 | The result is the decoding of the longest decodable prefix of the downloaded bytes; the copy at modules/MarketAPI.py:96-107 is the same |
| LegacyMarketApi.ManifestKey | modules/MarketAPI.py:129 | The key is the index line up to its first "_en", or the whole line when it has none |
| LegacyMarketApi.ManifestKeyOfName | modules/MarketAPI.py:129 | A name without "_en" followed by "_en" and anything has that name as its key |
| LegacyMarketApi.JsonLinksSpec | modules/MarketAPI.py:155-159 | The filter raises AttributeError exactly when an anchor has no `href`; otherwise it keeps exactly the links ending in "json" |
| LegacyMarketApi.GetPriceHistoryDates | modules/MarketAPI.py:155-159 | The loop over the anchors yields the links ending in "json" in page order, or the AttributeError |
| LegacyMarketApi.JsonLinksRest | modules/MarketAPI.py:156-158 | Once an anchor has raised, later anchors do not matter |
| LegacyMarketApi.FixedRecordsGrow | modules/MarketAPI.py:215 | A record given an id keeps it when later names are added to the table |
| LegacyMarketApi.FixedRecordsSnoc | modules/MarketAPI.py:215 | Giving one more record the id of its translated name extends the fixed prefix |
| LegacyMarketApi.MintableRecordsInFile | modules/MarketAPI.py:204-213 | The names an item's records can mint are among the names the file can mint |
| LegacyMarketApi.FixedFileSnoc | modules/MarketAPI.py:204-215 | One more item with all its records fixed extends the fixed prefix of the file |
| LegacyMarketApi.FixedFileGrow | modules/MarketAPI.py:204-215 | A fixed file stays fixed when later names are added to the table |
| LegacyMarketApi.FixedFilesGrow | modules/MarketAPI.py:196-215 | Fixed files stay fixed when later names are added to the table |
| LegacyMarketApi.FixRecords | modules/MarketAPI.py:205-215 | Over one item's records: existing ids are kept, new names are only translated names of records without `subtype`, each record gets the id of its translated name, and the name has an id afterwards; KeyError is raised exactly when the item has records, its translated name has no id, and its first record has `subtype` |
| LegacyMarketApi.FixFile | modules/MarketAPI.py:204-215 | Over one file: existing ids are kept, every new name comes from a record without `subtype`, every record gets its translated name's id, and the names with ids grow by those of the items with records; KeyError is raised exactly when some item's first record has `subtype` while its name has no id yet, neither known nor minted by an earlier item (FileRaises) |
| LegacyMarketApi.NamedItemsSnoc | modules/MarketAPI.py:204-215 | After one more item with records, its translated name is among the names that have ids |
| LegacyMarketApi.FilesRaiseStep | modules/MarketAPI.py:196-218 | The files from one on raise when that file raises, and otherwise when the rest raise given the names it adds |
| LegacyMarketApi.FixedFilesSnoc | modules/MarketAPI.py:196-218 | One more file fixed extends the fixed prefix of the files |
| LegacyMarketApi.ListedKeys | modules/MarketAPI.py:190-194 | The table built from the listing holds exactly the listed names |
| LegacyMarketApi.KnownNames | modules/MarketAPI.py:190-215 | Every name of the final table is listed or was minted for a record without `subtype` |
| LegacyMarketApi.BuildItemIds | modules/MarketAPI.py:190-223 | The listing's names have the id of their last listing; every other name in the table was minted for a saved record without `subtype`; every saved record carries its translated name's id; KeyError is raised exactly when some file raises given the names known before it (FilesRaise, starting from the listed names), and then the files before the failing one have been rewritten and fixed while the ids table is not written |
| LegacyMarketApi.SavePriceHistory | modules/MarketAPI.py:284-289 | The file store becomes the old store with each day not yet on disk written to `<output directory>/price_history_<day>.json` |
| RelicsRunApi.TagDays | market_engine/modules/API/RelicsRunAPI.py:16-20 | One tagged day per day, in order |
| RelicsRunApi.TagAll | market_engine/modules/API/RelicsRunAPI.py:15-20 | One entry per entry, in order |
| RelicsRunApi.TagEntryDays | market_engine/modules/API/RelicsRunAPI.py:16-20 | The inner loop tags the day at index j with the id of the name translated j + 1 times |
| RelicsRunApi.FixNamesAndAddIds | market_engine/modules/API/RelicsRunAPI.py:14-20 | Every entry's days are tagged, entries kept in order |
| RelicsRunApi.TagDaySpec | market_engine/modules/API/RelicsRunAPI.py:20 | A tagged day has `item_id` set to its name's id and every other key, `order_type` included, unchanged |
| RelicsRunApi.TagAllSpec | market_engine/modules/API/RelicsRunAPI.py:14-20 | The day at index j of an entry carries the id of the entry's name translated j + 1 times and keeps its own `order_type` |
| RelicsRunApi.TagDayVersusFixDay | market_engine/modules/API/RelicsRunAPI.py:14-20 | This variant agrees with the common `fix_names_and_add_ids` on days that have an `order_type`; on the others only the common one adds a default |
| RelicsRunApi.JsonLinkSet | market_engine/modules/API/RelicsRunAPI.py:51-57 | The set of links ending in "json", or AttributeError exactly when an anchor has no `href`; the copy at market_engine/API/RelicsRunAPI.py:70-76 is the same |
| RelicsRunApi.SavedData | market_engine/modules/API/RelicsRunAPI.py:60-69 | Exactly the listed file names ending in ".json"; the copy at market_engine/API/RelicsRunAPI.py:79-93 is the same |
| RelicsRunApi.DatesToFetch | market_engine/modules/API/RelicsRunAPI.py:75 | The remote dates not saved: all of them and nothing else |
| RelicsRunApi.GetDatesToFetch | market_engine/modules/API/RelicsRunAPI.py:72-77 | A date is fetched exactly when a link names it, it ends in "json", and it is not a saved ".json" file; a missing `href` raises; the copy at market_engine/API/RelicsRunAPI.py:96-108 is the same |
| RelicsRunApi.SavedLinksSkipped | market_engine/modules/API/RelicsRunAPI.py:72-77 | A saved file is never fetched again, and every date fetched is not a saved file |
| RelicsRunApi.ItemDataUrls | market_engine/modules/API/RelicsRunAPI.py:80-97 | The four catalogue downloads are four distinct files |
| RelicsRunApi.FetchItemData | market_engine/modules/API/RelicsRunAPI.py:80-106 | The four downloads go through `fetch_api_data` on one cache: each result is its own URL's cache entry from before the downloads or, on a miss, its response, and `gather` gives them in the listed order or an error of one of them; no store is found by any of the four lookups, so the four URLs still miss afterwards, and the cache gains exactly the stores of the successful misses; the copy at market_engine/API/RelicsRunAPI.py:159-172 is the same |
| RelicsRunApi.FetchItemFile | market_engine/modules/API/RelicsRunAPI.py:80-97 | One download: its result is its cache entry or its response, its store is the miss's store, and no catalogue URL finds that store |
| RelicsRunApi.StoreKeyNotItemUrl | market_engine/common.py:112-131 | The key a header-less fetch stores under is never a catalogue URL |
| RelicsRunApi.Gather | market_engine/modules/API/RelicsRunAPI.py:106 | `gather` succeeds exactly when every task does, with their results in listed order; otherwise it raises an error of a failing task, every task listed before it having succeeded |
| Text.Words | market_engine/modules/Models/MarketDatabase.py:32 | Every word of `split()` is non-empty and free of Python's whitespace, the characters `str.isspace` accepts |
| Text.WordsOfJoin | market_engine/modules/Models/MarketDatabase.py:32-35 | Splitting the space-joined words gives the same words back |
| Text.Lower | market_engine/modules/Models/MarketDatabase.py:39 | `lower()` on ASCII: the length is kept, 'A' to 'Z' become 'a' to 'z', and every other character stays |
| Text.SplitOn | market_engine/modules/Models/MarketDatabase.py:182 | Splitting on a separator yields at least one field |
| Text.JoinOfSplit | market_engine/modules/Models/MarketDatabase.py:182 | Joining the fields of a split with its separator gives the text back |
| Text.SplitOfJoin | market_engine/modules/Models/MarketDatabase.py:182 | Fields free of the separator come back unchanged from joining and splitting |
| Text.BeforeFirst | modules/MarketAPI.py:129 | The text before the first occurrence of the separator, or the whole text when it does not occur |
| Dicts.Lookup | modules/MarketAPI.py:215 | A lookup finds a value exactly when the key is present |
| Dicts.Put | modules/MarketAPI.py:194 | Assigning a key adds it, gives it the value, and leaves every other key's value as it was |
| Dicts.PutDistinct | modules/MarketAPI.py:194 | Assigning a key never duplicates one |
| Dicts.PutNew | modules/MarketAPI.py:213 | Assigning a key not yet present appends it at the end, as a dict keeps insertion order |
| Dicts.FromPairsLookup | modules/MarketAPI.py:193-194 | Filling a dict pair by pair gives one entry per key, holding the value of the key's last pair |
| Dicts.LastValueSpec | modules/MarketAPI.py:193-194 | A key's last pair exists exactly when some pair has the key, and no later pair has it |
| Dicts.KeySetCons | modules/MarketAPI.py:193-194 | The keys of a pair followed by a dict are the pair's key and the dict's keys |
| Dicts.PutInPlace | market_engine/modules/Models/MarketDatabase.py:254-255 | Assigning an existing key replaces its entry where it stands, every position kept |
| Dicts.KeysInOrderMembers | market_engine/modules/Models/MarketDatabase.py:45-57 | A key is iterated exactly when it is in the dict |
| Dicts.KeysOfPut | market_engine/modules/Models/MarketDatabase.py:254-255 | Assigning keeps the order of the keys, a new key going last |
| Dicts.FromPairsKeys | market_engine/modules/Models/MarketDatabase.py:254-255 | `dict(rows)` iterates its keys in the order they first appear in the rows |
| Prelude.SliceTo | modules/MarketData.py:224 | `s[:n]` is a prefix of `s`, of length `n` clipped to `0..len(s)`, counting from the end for a negative `n` |
| Prelude.KeepSpec | market_engine/modules/MarketData.py:396-397 | A comprehension with a raising test raises exactly when some element's test raises, the first such error; otherwise it keeps exactly the elements whose test holds, no more than there were |
| Prelude.KeepAppend | market_engine/modules/MarketData.py:396-397 | A comprehension over a concatenation is the concatenation of the comprehensions, so the kept elements stay in their order |
| Prelude.KeepFirstError | market_engine/modules/MarketData.py:396-397 | The first element whose test raises, every earlier test having returned, decides the comprehension's error |
| Prelude.KeepSingle | market_engine/modules/MarketData.py:396-397 | Over one element, a comprehension keeps it, drops it, or raises its test's error |
| Prelude.KeepKeep | modules/MarketData.py:218-222 | Filtering by one never-raising test and then by another is one comprehension whose test is their conjunction, the second test evaluated only where the first holds |
| Prelude.KeepAll | modules/MarketData.py:218-222 | A comprehension whose test holds everywhere keeps the whole list |

## Left out

- Network I/O, `session.get`, the tenacity retries, the retry loops and their back-off are left out. Each download is a parameter holding its outcome.
- The `AsyncLimiter` token buckets are left out. A rate limiter is only a count of acquisitions, enough to say that a cache hit does not touch it.
- Redis is a map from keys to text. The `expiration` argument and TTL expiry are left out, so a stored entry never expires.
- SQL and pymysql are left out. The tables are fields of the `MarketDatabase` objects, and queries are functions over them.
- `asyncio.gather` over items is modelled as processing the items in list order. The other interleavings of the coroutines are not modelled.
- RelicsRunApi.Gather: when several downloads fail, `gather` raises the error of the one that fails first in time; the model raises that of the first failing one in listed order. The downloads run one after another in listed order, which changes no result, since no download's store is found by another's lookup.
- The `ThreadPoolExecutor` of market_engine/modules/MarketData.py is not modelled, nor is the `require_orders` decorator's scheduling, nor the `create` factories. They only sequence fetches.
- The orchestration functions are left out: `fetch_statistics_from_relics_run`, `fetch_and_save_statistics`, `get_manifest`'s download loop, `fetch_premade_data` and `fetch_and_save_sets`. They are I/O around the modelled pieces.
- JSON and file I/O are left out: `json.load`/`json.dump`, `os.listdir`, `os.path.isfile`. A directory listing is a parameter, and files are a map from path to content.
- Some loops mutate dicts in place, for example the day records stamped by `fix_names_and_add_ids`. These are modelled by value: the method returns the updated records, so aliasing between records is not captured.
- Some call sites do not run as written, and only the functions they call are modelled:
  - market_engine/modules/API/MarketAPI.py:42 uses `directory`, which is not defined there;
  - market_engine/modules/API/ManifestAPI.py:28 passes its arguments to `fetch_api_data` in the wrong order;
  - so does market_engine/modules/API/MarketAPI.py:123.
- `modules.MarketDB`, the checkpointed batch loader, is not part of this model. Neither are `get_platform_path` and `get_statistic_path`; their directory is a parameter.
- `fuzz.ratio`, LZMA, md5, uuid4 and BeautifulSoup are parameters, not reimplementations.
- Floating-point prices and volumes are left out. JSON numbers are integers, and Python's `1 == True` is not modelled.
- `Common.ReprHeaders` writes header names and values between single quotes without escaping. Python's `repr` would escape a quote or backslash inside them.
- The day records of the price statistics are typed as JSON objects, so the error a non-object day would raise is not modelled.
- `fix` decodes the repaired bytes as UTF-8. The model returns the bytes, since text decoding is not modelled.
- ManifestApi.WellBehaved is assumed of the frame decoder. It says that leftover bytes are shorter than the input, and that empty input decodes to an empty stream. This is true of `lzma.LZMADecompressor`, and it is what makes both loops terminate.
- Orders.ParsedSubtype: the digits of "R" + rank are stated only for a non-negative rank. `str` of a negative rank is not spelt out.
- ModelsMarketDatabase.AllItemsQuery: `GROUP_CONCAT` without `ORDER BY` leaves the order of the aliases to MySQL; the model takes them in alias-table order. MySQL also cuts the joined text at `group_concat_max_len` (1024 bytes by default), possibly inside an alias; the model never truncates, so ModelsMarketDatabase.CatalogAliases holds only for items whose joined aliases fit.
- UserData.InitialAttributes: Python's `hasattr` also sees `database`, `orders`, `reviews`, the class attributes `base_api_url`, `base_url` and `asset_url`, and the methods. A profile key with one of those names would be set on the user by the source; the model's attributes are only the 14 profile attributes, so it ignores such a key.
- UserData.Show: lists and objects are rendered as "[...]" and "{...}", not as Python's `str` of them.
- UserData.ParseUserOrder: orders and reviews are typed records (RawUserOrder, RawReview, and RawOrder in `Orders`), so the KeyError the source raises on a missing field is not modelled; the same holds for UserData.ParseReview and Orders.ParseOrder. A `mod_rank` that is present but null is the same as an absent one in the typed record, whereas the source makes the subtype "RNone".
- Text.Words / Text.Lower: Text.Words splits on Python's full `str.isspace` set, but Text.Lower maps only 'A' to 'Z'. Python's `lower()` also lower-cases other letters and can change the length, as 'İ' does.
- market_engine/API/RelicsRunAPI.py:65 passes `return_type='text'` to `fetch_api_data`, which takes no such argument; that call site is not modelled.
- Fuzzy.ClosestCommonWord: the scan order of the set is not modelled. Any common word with the highest ratio is allowed, and the source returns the first one its set iteration meets.

## Findings

| source | as written | input that shows it | evidently intended | confidence | as-written member | corrected member |
|---|---|---|---|---|---|---|
| market_engine/common.py:112-131 | `fetch_api_data` looks the cache up under `url` but stores the response under `url#headers` | Any fetch of a URL not in the cache: the store goes to `url#{}`, so the next fetch of the same URL misses again and goes back to the network | Look up and store under the same key, so that a fetched response is found by the next call | not executed | Common.OwnWriteNeverHits | Common.FetchApiDataCorrected |
