/** modules/MarketAPI.py, the older API module: the manifest key of an index line, the links
    kept from the price-history page, the name-to-id table completed from saved history files,
    and the saving of the price history. Its `decompress_lzma` and `fix` are the functions of
    `ManifestApi`, and its per-item price-history loop is `PriceHistory.PriceHistoryDict.ProcessItem`. */
module LegacyMarketApi {
  import opened Prelude
  import opened Text
  import opened Dicts
  import Common
  import PriceHistory
  import MarketApi

  type Record = Common.Record

  /** `item.split("_en")[0]`: the index line up to its first "_en". */
  function ManifestKey(item: string): (r: string)
    ensures |r| <= |item| && r == item[..|r|]
    ensures r == item || OccursAt(item, "_en", |r|)
    ensures forall k :: 0 <= k < |r| ==> !OccursAt(item, "_en", k)
  {
    BeforeFirst(item, "_en")
  }

  /** A line without "_en" is its own key; otherwise the key stops right before the first one. */
  lemma ManifestKeyOfName(name: string, rest: string)
    requires forall k :: 0 <= k < |name| ==> !OccursAt(name + "_en" + rest, "_en", k)
    ensures ManifestKey(name + "_en" + rest) == name
  {
    var item := name + "_en" + rest;
    assert OccursAt(item, "_en", |name|) by {
      assert item[|name|..|name| + 3] == "_en";
    }
    assert item[..|name|] == name;
  }

  // ---------------------------------------------------------------------------
  // get_price_history_dates

  /** The links kept from the page's anchors: those ending in "json", in page order. An anchor
      without `href` gives None, on which `endswith` raises AttributeError. */
  function JsonLinks(hrefs: seq<Option<string>>): Result<seq<string>> {
    if hrefs == [] then Ok([])
    else match JsonLinks(hrefs[..|hrefs| - 1])
      case Err(e) => Err(e)
      case Ok(urls) =>
        match hrefs[|hrefs| - 1]
        case None => Err("AttributeError")
        case Some(link) => Ok(if EndsWith(link, "json") then urls + [link] else urls)
  }

  /** The filter raises exactly when an anchor has no `href`; otherwise it keeps exactly the
      links ending in "json", each at most once per anchor. */
  lemma {:induction false} JsonLinksSpec(hrefs: seq<Option<string>>)
    ensures JsonLinks(hrefs).Err? <==> None in hrefs
    ensures JsonLinks(hrefs).Err? ==> JsonLinks(hrefs).error == "AttributeError"
    ensures JsonLinks(hrefs).Ok? ==> |JsonLinks(hrefs).value| <= |hrefs|
    ensures JsonLinks(hrefs).Ok? ==> forall x :: x in JsonLinks(hrefs).value <==> Some(x) in hrefs && EndsWith(x, "json")
  {
    if hrefs != [] {
      var init := hrefs[..|hrefs| - 1];
      JsonLinksSpec(init);
      assert hrefs == init + [hrefs[|hrefs| - 1]];
    }
  }

  /** The loop of `get_price_history_dates` over the page's anchors. */
  method GetPriceHistoryDates(hrefs: seq<Option<string>>) returns (r: Result<seq<string>>)
    ensures r == JsonLinks(hrefs)
  {
    var urls: seq<string> := [];
    var i := 0;
    while i < |hrefs|
      invariant 0 <= i <= |hrefs|
      invariant JsonLinks(hrefs[..i]) == Ok(urls)
    {
      assert hrefs[..i + 1][..i] == hrefs[..i];
      var link := hrefs[i];
      if link.None? {
        JsonLinksRest(hrefs[..i + 1], hrefs[i + 1..]);
        assert hrefs[..i + 1] + hrefs[i + 1..] == hrefs;
        return Err("AttributeError");
      }
      if EndsWith(link.value, "json") {
        urls := urls + [link.value];
      }
      i := i + 1;
    }
    assert hrefs[..i] == hrefs;
    r := Ok(urls);
  }

  /** Once an anchor has raised, later anchors do not matter. */
  lemma {:induction false} JsonLinksRest(done: seq<Option<string>>, rest: seq<Option<string>>)
    requires JsonLinks(done).Err?
    ensures JsonLinks(done + rest) == JsonLinks(done)
  {
    if rest == [] {
      assert done + rest == done;
    } else {
      JsonLinksRest(done, rest[..|rest| - 1]);
      assert (done + rest)[..|done + rest| - 1] == done + rest[..|rest| - 1];
    }
  }

  // ---------------------------------------------------------------------------
  // build_item_ids, in memory

  /** A saved history file: item name to its records. */
  type HistoryFile = Dict<string, seq<Record>>

  /** `b` keeps every entry of `a`. */
  ghost predicate Extends(a: Dict<string, string>, b: Dict<string, string>) {
    forall k :: k in KeySet(a) ==> Lookup(b, k) == Lookup(a, k)
  }

  /** Every name `b` has beyond `a` is one of `names`. */
  ghost predicate NewFrom(a: Dict<string, string>, b: Dict<string, string>, names: set<string>) {
    forall k :: k in KeySet(b) && k !in KeySet(a) ==> k in names
  }

  /** The translated names that may get a fresh id: those of records without `subtype`. */
  ghost function MintableRecords(key: string, records: seq<Record>, translation: Dict<string, string>): set<string> {
    set m | 0 <= m < |records| && "subtype" !in KeySet(records[m]) :: Common.Translate(translation, key)
  }

  ghost function MintableFile(file: HistoryFile, translation: Dict<string, string>): set<string> {
    set j, m | 0 <= j < |file| && 0 <= m < |file[j].1| && "subtype" !in KeySet(file[j].1[m]) :: Common.Translate(translation, file[j].0)
  }

  ghost function MintableFiles(files: seq<HistoryFile>, translation: Dict<string, string>): set<string> {
    set i, j, m | 0 <= i < |files| && 0 <= j < |files[i]| && 0 <= m < |files[i][j].1| && "subtype" !in KeySet(files[i][j].1[m])
      :: Common.Translate(translation, files[i][j].0)
  }

  /** Each of `out` is the record of `records` with the id of the translated name. */
  ghost predicate FixedRecords(key: string, records: seq<Record>, out: seq<Record>, ids: Dict<string, string>,
                               translation: Dict<string, string>) {
    var name := Common.Translate(translation, key);
    && |out| == |records|
    && (records != [] ==> name in KeySet(ids))
    && forall m :: 0 <= m < |records| ==> out[m] == Put(records[m], "item_id", JStr(Lookup(ids, name).value))
  }

  ghost predicate FixedFile(file: HistoryFile, out: HistoryFile, ids: Dict<string, string>, translation: Dict<string, string>) {
    && |out| == |file|
    && forall j :: 0 <= j < |file| ==> out[j].0 == file[j].0 && FixedRecords(file[j].0, file[j].1, out[j].1, ids, translation)
  }

  ghost predicate FixedFiles(files: seq<HistoryFile>, out: seq<HistoryFile>, ids: Dict<string, string>,
                             translation: Dict<string, string>) {
    && |out| == |files|
    && forall i :: 0 <= i < |files| ==> FixedFile(files[i], out[i], ids, translation)
  }

  /** The translated names of the file's items that have records: each has an id once the file
      is fixed. */
  ghost function NamedItems(file: HistoryFile, translation: Dict<string, string>): set<string> {
    set j | 0 <= j < |file| && file[j].1 != [] :: Common.Translate(translation, file[j].0)
  }

  /** Fixing the file raises KeyError, given the names `known` to have ids: some item's first
      record has `subtype` while its translated name has no id yet, neither known nor minted by
      an earlier item. (Every record of an item shares the item's name, so once its first
      record passes, the name has an id.) */
  ghost predicate FileRaises(file: HistoryFile, known: set<string>, translation: Dict<string, string>)
    decreases |file|
  {
    if file == [] then false
    else
      var name := Common.Translate(translation, file[0].0);
      var records := file[0].1;
      if records != [] && name !in known && "subtype" in KeySet(records[0]) then true
      else FileRaises(file[1..], if records == [] then known else known + {name}, translation)
  }

  /** Fixing the files in turn raises KeyError. */
  ghost predicate FilesRaise(files: seq<HistoryFile>, known: set<string>, translation: Dict<string, string>)
    decreases |files|
  {
    files != []
    && (FileRaises(files[0], known, translation)
        || FilesRaise(files[1..], known + NamedItems(files[0], translation), translation))
  }

  /** The names of the listing. */
  ghost function ListedNames(items: seq<MarketApi.ListedItem>): set<string> {
    set i | 0 <= i < |items| :: items[i].itemName
  }

  /** A record fixed with some ids stays fixed once the ids grow. */
  lemma FixedRecordsGrow(key: string, records: seq<Record>, out: seq<Record>, ids: Dict<string, string>,
                         ids': Dict<string, string>, translation: Dict<string, string>)
    requires FixedRecords(key, records, out, ids, translation) && Extends(ids, ids')
    ensures FixedRecords(key, records, out, ids', translation)
  {
    var t := Common.Translate(translation, key);
    if records != [] {
      assert Lookup(ids', t) == Lookup(ids, t);
    }
  }

  /** One more record fixed with the id of the translated name. */
  lemma FixedRecordsSnoc(key: string, records: seq<Record>, m: int, out: seq<Record>, ids: Dict<string, string>,
                         translation: Dict<string, string>)
    requires 0 <= m < |records| && FixedRecords(key, records[..m], out, ids, translation)
    requires Common.Translate(translation, key) in KeySet(ids)
    ensures FixedRecords(key, records[..m + 1],
      out + [Put(records[m], "item_id", JStr(Lookup(ids, Common.Translate(translation, key)).value))], ids, translation)
  {
    TakeSnoc(records, m);
  }

  lemma MintableRecordsInFile(file: HistoryFile, j: int, translation: Dict<string, string>)
    requires 0 <= j < |file|
    ensures MintableRecords(file[j].0, file[j].1, translation) <= MintableFile(file, translation)
  {
    var (key, records) := file[j];
    forall x | x in MintableRecords(key, records, translation) ensures x in MintableFile(file, translation) {
      var m :| 0 <= m < |records| && "subtype" !in KeySet(records[m]) && x == Common.Translate(translation, key);
      assert file[j].1[m] == records[m];
    }
  }

  /** One more item of the file fixed. */
  lemma FixedFileSnoc(file: HistoryFile, j: int, out: HistoryFile, fixed: seq<Record>, ids: Dict<string, string>,
                      translation: Dict<string, string>)
    requires 0 <= j < |file| && FixedFile(file[..j], out, ids, translation)
    requires FixedRecords(file[j].0, file[j].1, fixed, ids, translation)
    ensures FixedFile(file[..j + 1], out + [(file[j].0, fixed)], ids, translation)
  {
    TakeSnoc(file, j);
  }

  lemma FixedFileGrow(file: HistoryFile, out: HistoryFile, ids: Dict<string, string>, ids': Dict<string, string>,
                      translation: Dict<string, string>)
    requires FixedFile(file, out, ids, translation) && Extends(ids, ids')
    ensures FixedFile(file, out, ids', translation)
  {
    forall j | 0 <= j < |file| ensures FixedRecords(file[j].0, file[j].1, out[j].1, ids', translation) {
      FixedRecordsGrow(file[j].0, file[j].1, out[j].1, ids, ids', translation);
    }
  }

  lemma FixedFilesGrow(files: seq<HistoryFile>, out: seq<HistoryFile>, ids: Dict<string, string>, ids': Dict<string, string>,
                       translation: Dict<string, string>)
    requires FixedFiles(files, out, ids, translation) && Extends(ids, ids')
    ensures FixedFiles(files, out, ids', translation)
  {
    forall i | 0 <= i < |files| ensures FixedFile(files[i], out[i], ids', translation) {
      FixedFileGrow(files[i], out[i], ids, ids', translation);
    }
  }

  /** The innermost loop: the records of one item of one history file. A record without
      `subtype` whose translated name has no id yet mints one; then the record gets the id of
      its translated name, and KeyError is raised if there is none. */
  method FixRecords(key: string, records: seq<Record>, translation: Dict<string, string>, ids: Dict<string, string>,
                    counter: nat, newId: nat -> string)
    returns (r: Result<(Dict<string, string>, nat, seq<Record>)>)
    ensures r.Err? ==> r.error == "KeyError"
    ensures r.Err? <==>
      records != [] && Common.Translate(translation, key) !in KeySet(ids) && "subtype" in KeySet(records[0])
    ensures r.Ok? ==>
      && Extends(ids, r.value.0)
      && NewFrom(ids, r.value.0, MintableRecords(key, records, translation))
      && FixedRecords(key, records, r.value.2, r.value.0, translation)
      && KeySet(r.value.0) == KeySet(ids) + (if records == [] then {} else {Common.Translate(translation, key)})
  {
    var cur, count := ids, counter;
    var out: seq<Record> := [];
    var m := 0;
    while m < |records|
      invariant 0 <= m <= |records|
      invariant Extends(ids, cur) && NewFrom(ids, cur, MintableRecords(key, records, translation))
      invariant FixedRecords(key, records[..m], out, cur, translation)
      invariant KeySet(cur) == KeySet(ids) + (if m == 0 then {} else {Common.Translate(translation, key)})
      invariant m > 0 ==> Common.Translate(translation, key) in KeySet(ids) || "subtype" !in KeySet(records[0])
    {
      var record := records[m];
      var fixedItem := Common.Translate(translation, key);
      if "subtype" !in KeySet(record) && fixedItem !in KeySet(cur) {
        ghost var before := cur;
        cur := Put(cur, fixedItem, newId(count));
        count := count + 1;
        FixedRecordsGrow(key, records[..m], out, before, cur, translation);
      }
      var id := Lookup(cur, fixedItem);
      if id.None? {
        assert m == 0;
        return Err("KeyError");
      }
      FixedRecordsSnoc(key, records, m, out, cur, translation);
      out := out + [Put(record, "item_id", JStr(id.value))];
      m := m + 1;
    }
    assert records[..m] == records;
    r := Ok((cur, count, out));
  }

  /** One more item of the file: its name joins the named items when it has records. */
  lemma NamedItemsSnoc(file: HistoryFile, j: int, translation: Dict<string, string>)
    requires 0 <= j < |file|
    ensures NamedItems(file[..j + 1], translation)
      == NamedItems(file[..j], translation) + (if file[j].1 == [] then {} else {Common.Translate(translation, file[j].0)})
  {
    var a, b := file[..j + 1], file[..j];
    forall x | x in NamedItems(a, translation)
      ensures x in NamedItems(b, translation) + (if file[j].1 == [] then {} else {Common.Translate(translation, file[j].0)})
    {
      var k :| 0 <= k < |a| && a[k].1 != [] && x == Common.Translate(translation, a[k].0);
      if k < j { assert a[k] == b[k]; }
    }
    forall x | x in NamedItems(b, translation) ensures x in NamedItems(a, translation) {
      var k :| 0 <= k < |b| && b[k].1 != [] && x == Common.Translate(translation, b[k].0);
      assert a[k] == b[k];
    }
    if file[j].1 != [] {
      assert a[j] == file[j];
    }
  }

  /** The middle loop: the items of one history file. */
  method FixFile(file: HistoryFile, translation: Dict<string, string>, ids: Dict<string, string>,
                 counter: nat, newId: nat -> string)
    returns (r: Result<(Dict<string, string>, nat, HistoryFile)>)
    ensures r.Err? ==> r.error == "KeyError"
    ensures r.Err? <==> FileRaises(file, KeySet(ids), translation)
    ensures r.Ok? ==>
      && Extends(ids, r.value.0)
      && NewFrom(ids, r.value.0, MintableFile(file, translation))
      && FixedFile(file, r.value.2, r.value.0, translation)
      && KeySet(r.value.0) == KeySet(ids) + NamedItems(file, translation)
  {
    var cur, count := ids, counter;
    var out: HistoryFile := [];
    var j := 0;
    while j < |file|
      invariant 0 <= j <= |file|
      invariant Extends(ids, cur) && NewFrom(ids, cur, MintableFile(file, translation))
      invariant FixedFile(file[..j], out, cur, translation)
      invariant KeySet(cur) == KeySet(ids) + NamedItems(file[..j], translation)
      invariant FileRaises(file, KeySet(ids), translation) == FileRaises(file[j..], KeySet(cur), translation)
    {
      var (key, records) := file[j];
      assert file[j..][0] == file[j] && file[j..][1..] == file[j + 1..];
      var step := FixRecords(key, records, translation, cur, count, newId);
      if step.Err? {
        assert FileRaises(file[j..], KeySet(cur), translation);
        return Err(step.error);
      }
      NamedItemsSnoc(file, j, translation);
      assert KeySet(step.value.0) == if records == [] then KeySet(cur) else KeySet(cur) + {Common.Translate(translation, key)};
      assert FileRaises(file[j..], KeySet(cur), translation) == FileRaises(file[j + 1..], KeySet(step.value.0), translation);
      var (next, count', fixed) := step.value;
      MintableRecordsInFile(file, j, translation);
      FixedFileGrow(file[..j], out, cur, next, translation);
      FixedFileSnoc(file, j, out, fixed, next, translation);
      cur, count := next, count';
      out := out + [(key, fixed)];
      j := j + 1;
    }
    assert file[..j] == file && file[j..] == [];
    r := Ok((cur, count, out));
  }

  /** The table built from the listing has exactly the listed names. */
  lemma ListedKeys(items: seq<MarketApi.ListedItem>, base: Dict<string, string>)
    requires forall name :: Lookup(base, name) == LastValue(MarketApi.NameIdPairs(items), name)
    ensures KeySet(base) == ListedNames(items)
  {
    forall name ensures name in KeySet(base) <==> name in ListedNames(items) {
      MarketApi.ItemIdsSpec(items, name);
      assert Lookup(base, name).Some? <==> name in KeySet(base);
    }
  }

  /** Fixing the files from the `i`-th on raises when that file raises, and otherwise when the
      rest raise given the names the file adds. */
  lemma FilesRaiseStep(files: seq<HistoryFile>, i: int, known: set<string>, translation: Dict<string, string>)
    requires 0 <= i < |files|
    ensures FileRaises(files[i], known, translation) ==> FilesRaise(files[i..], known, translation)
    ensures !FileRaises(files[i], known, translation) ==>
      FilesRaise(files[i..], known, translation) == FilesRaise(files[i + 1..], known + NamedItems(files[i], translation), translation)
  {
    assert files[i..][0] == files[i] && files[i..][1..] == files[i + 1..];
  }

  lemma MintableFileInFiles(files: seq<HistoryFile>, i: int, translation: Dict<string, string>)
    requires 0 <= i < |files|
    ensures MintableFile(files[i], translation) <= MintableFiles(files, translation)
  {
    forall x | x in MintableFile(files[i], translation) ensures x in MintableFiles(files, translation) {
      var j, m :| 0 <= j < |files[i]| && 0 <= m < |files[i][j].1| && "subtype" !in KeySet(files[i][j].1[m])
                  && x == Common.Translate(translation, files[i][j].0);
    }
  }

  /** One more file fixed extends the fixed prefix of the files. */
  lemma FixedFilesSnoc(files: seq<HistoryFile>, i: int, out: seq<HistoryFile>, fixed: HistoryFile,
                       ids: Dict<string, string>, translation: Dict<string, string>)
    requires 0 <= i < |files| && FixedFiles(files[..i], out, ids, translation)
    requires FixedFile(files[i], fixed, ids, translation)
    ensures FixedFiles(files[..i + 1], out + [fixed], ids, translation)
  {
    TakeSnoc(files, i);
  }

  /** Every name of the final table is listed or was minted. */
  lemma KnownNames(items: seq<MarketApi.ListedItem>, base: Dict<string, string>, ids: Dict<string, string>, minted: set<string>)
    requires forall name :: Lookup(base, name) == LastValue(MarketApi.NameIdPairs(items), name)
    requires NewFrom(base, ids, minted)
    ensures forall name :: name in KeySet(ids) ==> LastValue(MarketApi.NameIdPairs(items), name).Some? || name in minted
  {
    forall name | name in KeySet(ids)
      ensures LastValue(MarketApi.NameIdPairs(items), name).Some? || name in minted
    {
      if name in KeySet(base) {
        assert Lookup(base, name).Some?;
      }
    }
  }

  /** The in-memory part of `build_item_ids`: the listing's names and ids, then the ids of the
      saved history files' items, minting fresh ids from `newId` with a counter. Each history
      file is dumped back as soon as it is fixed, so `written` holds the files rewritten before
      a KeyError stops the loop, all of them on success; the ids table is written only on
      success, as `r`'s first component. `known` is the ids table when the loop stops. */
  method BuildItemIds(items: seq<MarketApi.ListedItem>, files: seq<HistoryFile>, translation: Dict<string, string>,
                      newId: nat -> string)
    returns (r: Result<(Dict<string, string>, seq<HistoryFile>)>, written: seq<HistoryFile>, known: Dict<string, string>)
    ensures r.Err? ==> r.error == "KeyError"
    ensures |written| <= |files| && FixedFiles(files[..|written|], written, known, translation)
    ensures forall name :: LastValue(MarketApi.NameIdPairs(items), name).Some? ==>
      Lookup(known, name) == LastValue(MarketApi.NameIdPairs(items), name)
    ensures r.Err? <==> |written| < |files|
    ensures r.Err? <==> FilesRaise(files, ListedNames(items), translation)
    ensures r.Err? ==> FileRaises(files[|written|], KeySet(known), translation)
    ensures r.Ok? ==> r.value == (known, written)
    ensures r.Ok? ==>
      var (ids, out) := r.value;
      && (forall name :: LastValue(MarketApi.NameIdPairs(items), name).Some? ==>
            Lookup(ids, name) == LastValue(MarketApi.NameIdPairs(items), name))
      && (forall name :: name in KeySet(ids) ==>
            LastValue(MarketApi.NameIdPairs(items), name).Some? || name in MintableFiles(files, translation))
      && FixedFiles(files, out, ids, translation)
  {
    var base := MarketApi.BuildItemIds(items);
    ListedKeys(items, base);
    assert files[0..] == files;
    var cur, count := base, 0;
    var out: seq<HistoryFile> := [];
    var i := 0;
    while i < |files|
      invariant 0 <= i <= |files|
      invariant Extends(base, cur) && NewFrom(base, cur, MintableFiles(files, translation))
      invariant FixedFiles(files[..i], out, cur, translation)
      invariant FilesRaise(files, ListedNames(items), translation) == FilesRaise(files[i..], KeySet(cur), translation)
    {
      FilesRaiseStep(files, i, KeySet(cur), translation);
      var step := FixFile(files[i], translation, cur, count, newId);
      if step.Err? {
        return Err(step.error), out, cur;
      }
      var (next, count', fixed) := step.value;
      MintableFileInFiles(files, i, translation);
      FixedFilesGrow(files[..i], out, cur, next, translation);
      FixedFilesSnoc(files, i, out, fixed, next, translation);
      cur, count := next, count';
      out := out + [fixed];
      i := i + 1;
    }
    assert files[..i] == files && files[i..] == [];
    KnownNames(items, base, cur, MintableFiles(files, translation));
    r, written, known := Ok((cur, out)), out, cur;
  }

  // ---------------------------------------------------------------------------
  // save_price_history

  /** `save_price_history`: every day not yet on disk is written to
      `<output directory>/price_history_<day>.json`. */
  method SavePriceHistory(store: PriceHistory.FileStore, history: PriceHistory.Buckets, outputDirectory: string)
    modifies store
    ensures store.files == PriceHistory.SaveAll(old(store.files), history, outputDirectory + "/price_history_")
  {
    PriceHistory.SaveDays(store, history, outputDirectory + "/price_history_");
  }
}
