/** The price-history handling shared, line for line, by market_engine/modules/API/MarketAPI.py
    and modules/MarketAPI.py: each day record of an item's closed and live series is stamped
    with the item's id, defaults its order type, and is appended to the bucket of its date and
    item name; each day's bucket is then saved to a file of its own unless that file exists. */
module PriceHistory {
  import opened Prelude
  import opened Text
  import opened Dicts
  import Common

  type Record = Common.Record

  /** `price_history_dict`: date to item name to the records of that day, in arrival order. */
  type Buckets = Dict<string, Dict<string, seq<Record>>>

  /** `price_history_dict[date][name]`, read without creating it. */
  function Bucket(b: Buckets, date: string, name: string): seq<Record> {
    match Lookup(b, date)
    case None => []
    case Some(names) => Lookup(names, name).GetOr([])
  }

  /** `price_history_dict[date][name].append(record)` on the nested defaultdict. */
  function AddRecord(b: Buckets, date: string, name: string, record: Record): Buckets {
    var names := Lookup(b, date).GetOr([]);
    Put(b, date, Put(names, name, Lookup(names, name).GetOr([]) + [record]))
  }

  /** Appending reaches exactly one bucket, at its end. */
  lemma AddRecordBucket(b: Buckets, date: string, name: string, record: Record, date': string, name': string)
    ensures Bucket(AddRecord(b, date, name, record), date', name') ==
      Bucket(b, date', name') + (if date' == date && name' == name then [record] else [])
  {
  }

  /** What the loop body does with one day record: the date is the datetime text before the
      first "T"; the item name is translated once; the id of the translated name is required;
      `order_type` defaults to "Closed". The result is the bucket and the updated record. */
  function DayOutcome(day: Record, itemName: string, translation: Dict<string, string>,
                      itemIds: Dict<string, string>): Result<(string, string, Record)>
  {
    match Lookup(day, "datetime")
    case None => Err("KeyError")
    case Some(dt) =>
      if !dt.JStr? then Err("AttributeError")
      else
        var date := BeforeFirst(dt.s, "T");
        var name := Common.Translate(translation, itemName);
        match Lookup(itemIds, name)
        case None => Err("KeyError")
        case Some(id) =>
          var stamped := Put(day, "item_id", JStr(id));
          var typed := if "order_type" in KeySet(stamped) then stamped else Put(stamped, "order_type", JStr("Closed"));
          Ok((date, name, typed))
  }

  /** A record without datetime, or whose translated name has no id, raises KeyError. */
  lemma DayOutcomeErrors(day: Record, itemName: string, translation: Dict<string, string>, itemIds: Dict<string, string>)
    ensures Lookup(day, "datetime").None? ==> DayOutcome(day, itemName, translation, itemIds) == Err("KeyError")
    ensures Lookup(day, "datetime").Some? && Lookup(day, "datetime").value.JStr? &&
            Common.Translate(translation, itemName) !in KeySet(itemIds) ==>
      DayOutcome(day, itemName, translation, itemIds) == Err("KeyError")
  {
  }

  /** The updated record carries the translated name's id and an order type: its own when it
      had one, else "Closed". */
  lemma DayOutcomeRecord(day: Record, itemName: string, translation: Dict<string, string>, itemIds: Dict<string, string>)
    ensures DayOutcome(day, itemName, translation, itemIds).Ok? ==>
      var (_, name, record) := DayOutcome(day, itemName, translation, itemIds).value;
      && name == Common.Translate(translation, itemName)
      && Lookup(record, "item_id") == Some(JStr(Lookup(itemIds, name).value))
      && Lookup(record, "order_type") == (if "order_type" in KeySet(day) then Lookup(day, "order_type") else Some(JStr("Closed")))
  {
  }

  /** The bucket's date is the prefix of the datetime up to its first "T", or all of it. */
  lemma DayOutcomeDate(day: Record, itemName: string, translation: Dict<string, string>, itemIds: Dict<string, string>)
    ensures DayOutcome(day, itemName, translation, itemIds).Ok? ==>
      var date := DayOutcome(day, itemName, translation, itemIds).value.0;
      var dt := Lookup(day, "datetime").value.s;
      && date == dt[..|date|] && (date == dt || dt[|date|] == 'T')
      && (forall k :: 0 <= k < |date| ==> date[k] != 'T')
  {
    if DayOutcome(day, itemName, translation, itemIds).Ok? {
      var dt := Lookup(day, "datetime").value.s;
      assert DayOutcome(day, itemName, translation, itemIds).value.0 == BeforeFirst(dt, "T");
      BeforeFirstChar(dt, 'T');
    }
  }

  /** One appended record and the bucket it went to. */
  type Entry = (string, string, Record)

  /** The buckets after appending `entries` in order. */
  function Fill(b: Buckets, entries: seq<Entry>): Buckets {
    Fold(b, entries, AddEntry)
  }

  function AddEntry(b: Buckets, entry: Entry): Buckets {
    AddRecord(b, entry.0, entry.1, entry.2)
  }

  /** Applying `add` to each entry in turn. */
  function Fold<B>(b: B, entries: seq<Entry>, add: (B, Entry) -> B): B {
    if entries == [] then b else add(Fold(b, entries[..|entries| - 1], add), entries[|entries| - 1])
  }

  lemma {:induction false} FoldConcat<B>(b: B, xs: seq<Entry>, ys: seq<Entry>, add: (B, Entry) -> B)
    ensures Fold(b, xs + ys, add) == Fold(Fold(b, xs, add), ys, add)
  {
    if ys == [] {
      assert xs + ys == xs;
    } else {
      FoldConcat(b, xs, ys[..|ys| - 1], add);
      assert (xs + ys)[..|xs + ys| - 1] == xs + ys[..|ys| - 1];
    }
  }

  /** The loop's progress over a sequence of day records: the records appended so far, and the
      error that stopped it, if one did. Records before the failing one stay appended. */
  datatype Progress = Progress(appended: seq<Entry>, error: Option<string>)

  /** The outcome of one day record under a given item name, translation and ids. */
  type Step = Record -> Result<Entry>

  function DayStep(itemName: string, translation: Dict<string, string>, itemIds: Dict<string, string>): Step {
    day => DayOutcome(day, itemName, translation, itemIds)
  }

  function Process(days: seq<Record>, step: Step): Progress
  {
    if days == [] then Progress([], None)
    else
      var p := Process(days[..|days| - 1], step);
      if p.error.Some? then p
      else match step(days[|days| - 1])
        case Err(e) => Progress(p.appended, Some(e))
        case Ok(entry) => Progress(p.appended + [entry], None)
  }

  /** The records of `days` that land in the bucket of `date` and `name`, updated, in order. */
  function Landing(days: seq<Record>, date: string, name: string, step: Step): seq<Record>
  {
    if days == [] then []
    else
      var earlier := Landing(days[..|days| - 1], date, name, step);
      match step(days[|days| - 1])
      case Ok((d, n, record)) => if d == date && n == name then earlier + [record] else earlier
      case Err(_) => earlier
  }

  /** Processing stops at the first failing record and only there. */
  lemma {:induction false} ProcessError(days: seq<Record>, step: Step)
    ensures Process(days, step).error.None? <==> forall i :: 0 <= i < |days| ==> step(days[i]).Ok?
  {
    if days != [] {
      var init := days[..|days| - 1];
      ProcessError(init, step);
      if Process(days, step).error.None? {
        forall i | 0 <= i < |days| ensures step(days[i]).Ok? {
          if i < |init| {
            assert init[i] == days[i];
          }
        }
      } else if Process(init, step).error.Some? {
        var i :| 0 <= i < |init| && !step(init[i]).Ok?;
        assert init[i] == days[i];
      }
    }
  }

  /** When no record fails, every bucket has grown by exactly the records that land in it, in
      their order. */
  lemma {:induction false} ProcessBuckets(b: Buckets, days: seq<Record>, step: Step, date: string, name: string)
    requires Process(days, step).error.None?
    ensures Bucket(Fill(b, Process(days, step).appended), date, name) == Bucket(b, date, name) + Landing(days, date, name, step)
  {
    if days != [] {
      var init := days[..|days| - 1];
      var p := Process(init, step);
      ProcessBuckets(b, init, step, date, name);
      var (d, n, record) := step(days[|days| - 1]).value;
      assert (p.appended + [(d, n, record)])[..|p.appended|] == p.appended;
      AddRecordBucket(Fill(b, p.appended), d, n, record, date, name);
    }
  }

  /** The records of the closed series land before those of the live series. */
  lemma {:induction false} LandingAppend(a: seq<Record>, c: seq<Record>, date: string, name: string, step: Step)
    ensures Landing(a + c, date, name, step) ==
      Landing(a, date, name, step) + Landing(c, date, name, step)
  {
    if c == [] {
      assert a + c == a;
    } else {
      var init := c[..|c| - 1];
      assert (a + c)[..|a + c| - 1] == a + init;
      LandingAppend(a, init, date, name, step);
    }
  }

  /** One step of `Process`: extending the records by one extends the progress by one step. */
  lemma ProcessSnoc(days: seq<Record>, day: Record, step: Step)
    ensures Process(days + [day], step) ==
      var p := Process(days, step);
      if p.error.Some? then p
      else match step(day)
        case Err(e) => Progress(p.appended, Some(e))
        case Ok(entry) => Progress(p.appended + [entry], None)
  {
    assert (days + [day])[..|days|] == days;
  }

  /** One more entry is one more append. */
  lemma FillSnoc(b: Buckets, entries: seq<Entry>, entry: Entry)
    ensures Fill(b, entries + [entry]) == AddRecord(Fill(b, entries), entry.0, entry.1, entry.2)
  {
    assert (entries + [entry])[..|entries|] == entries;
  }

  /** Once processing has failed, later records change nothing. */
  lemma {:induction false} ProcessRest(days: seq<Record>, rest: seq<Record>, step: Step)
    requires Process(days, step).error.Some?
    ensures Process(days + rest, step) == Process(days, step)
  {
    if rest != [] {
      var init := rest[..|rest| - 1];
      ProcessRest(days, init, step);
      assert (days + rest)[..|days + rest| - 1] == days + init;
    } else {
      assert days + rest == days;
    }
  }

  /** The nested defaultdict of `process_price_history`, filled in place. */
  class PriceHistoryDict {
    var buckets: Buckets

    constructor()
      ensures buckets == []
    {
      buckets := [];
    }

    /** `price_history_dict[date][name].append(record)`. */
    method Append(date: string, name: string, record: Record)
      modifies this
      ensures buckets == AddRecord(old(buckets), date, name, record)
    {
      buckets := AddRecord(buckets, date, name, record);
    }

    /** The inner loop of `process_price_history` over one series of day records. */
    method AppendSeries(days: seq<Record>, step: Step) returns (r: Result<()>)
      modifies this
      ensures var p := Process(days, step);
        buckets == Fill(old(buckets), p.appended) && r == (if p.error.Some? then Err(p.error.value) else Ok(()))
    {
      var j := 0;
      assert days[..0] == [];
      while j < |days|
        invariant 0 <= j <= |days|
        invariant SeriesInv(old(buckets), buckets, days, j, step)
      {
        var outcome := step(days[j]);
        if outcome.Err? {
          SeriesStops(old(buckets), buckets, days, j, step);
          return Err(outcome.error);
        }
        SeriesStep(old(buckets), buckets, days, j, step);
        var (date, name, record) := outcome.value;
        Append(date, name, record);
        j := j + 1;
      }
      SeriesDone(old(buckets), buckets, days, step);
      r := Ok(());
    }

    /** The per-item loops of `process_price_history`: the closed series, then the live series,
        each day record updated and appended; the first failing record raises and leaves the
        records before it appended. */
    method ProcessItem(itemName: string, closed: seq<Record>, live: seq<Record>,
                       translation: Dict<string, string>, itemIds: Dict<string, string>) returns (r: Result<()>)
      modifies this
      ensures var p := Process(closed + live, DayStep(itemName, translation, itemIds));
        buckets == Fill(old(buckets), p.appended) && r == (if p.error.Some? then Err(p.error.value) else Ok(()))
    {
      var step := DayStep(itemName, translation, itemIds);
      ProcessConcat(closed, live, step);
      var series := [closed, live];
      var s := 0;
      while s < |series|
        invariant 0 <= s <= |series|
        invariant var done := if s == 0 then [] else if s == 1 then closed else closed + live;
          Process(done, step).error.None? && buckets == Fill(old(buckets), Process(done, step).appended)
      {
        ghost var mid := buckets;
        r := AppendSeries(series[s], step);
        if s == 0 {
          assert [] + closed == closed;
          ProcessConcat([], closed, step);
        } else {
          FillConcat(old(buckets), Process(closed, step).appended, Process(live, step).appended);
        }
        if r.Err? {
          return;
        }
        s := s + 1;
      }
      r := Ok(());
    }
  }

  /** The invariant of the inner loop after `j` records: none failed, and the buckets hold the
      starting ones with the records so far appended. */
  ghost predicate SeriesInv(start: Buckets, buckets: Buckets, days: seq<Record>, j: int, step: Step)
    requires 0 <= j <= |days|
  {
    Process(days[..j], step).error.None? && buckets == Fill(start, Process(days[..j], step).appended)
  }

  /** A record that goes through keeps the invariant once it is appended. */
  lemma SeriesStep(start: Buckets, buckets: Buckets, days: seq<Record>, j: int, step: Step)
    requires 0 <= j < |days| && SeriesInv(start, buckets, days, j, step) && step(days[j]).Ok?
    ensures var (date, name, record) := step(days[j]).value;
      SeriesInv(start, AddRecord(buckets, date, name, record), days, j + 1, step)
  {
    ProcessSnoc(days[..j], days[j], step);
    assert days[..j] + [days[j]] == days[..j + 1];
    FillSnoc(start, Process(days[..j], step).appended, step(days[j]).value);
  }

  /** A record that fails ends the series with the records before it appended. */
  lemma SeriesFails(done: seq<Record>, day: Record, rest: seq<Record>, step: Step)
    requires Process(done, step).error.None? && step(day).Err?
    ensures Process(done + [day] + rest, step) == Progress(Process(done, step).appended, Some(step(day).error))
  {
    ProcessSnoc(done, day, step);
    ProcessRest(done + [day], rest, step);
  }

  /** The loop's exit through a failing record: the buckets are those the whole series leaves. */
  lemma SeriesStops(start: Buckets, buckets: Buckets, days: seq<Record>, j: int, step: Step)
    requires 0 <= j < |days| && SeriesInv(start, buckets, days, j, step) && step(days[j]).Err?
    ensures buckets == Fill(start, Process(days, step).appended)
    ensures Process(days, step).error == Some(step(days[j]).error)
  {
    SplitAround(days, j);
    SeriesFails(days[..j], days[j], days[j + 1..], step);
  }

  lemma SplitAround<T>(s: seq<T>, j: int)
    requires 0 <= j < |s|
    ensures s[..j] + [s[j]] + s[j + 1..] == s
  {
  }

  /** The loop's normal exit: every record went through. */
  lemma SeriesDone(start: Buckets, buckets: Buckets, days: seq<Record>, step: Step)
    requires SeriesInv(start, buckets, days, |days|, step)
    ensures buckets == Fill(start, Process(days, step).appended) && Process(days, step).error.None?
  {
    assert days[..|days|] == days;
  }

  /** Processing two series one after the other: the second starts where the first stopped,
      and runs only if the first did not fail. */
  lemma {:induction false} ProcessConcat(a: seq<Record>, c: seq<Record>, step: Step)
    ensures Process(a, step).error.Some? ==> Process(a + c, step) == Process(a, step)
    ensures Process(a, step).error.None? ==>
      Process(a + c, step) == Progress(Process(a, step).appended + Process(c, step).appended, Process(c, step).error)
  {
    if Process(a, step).error.Some? {
      ProcessRest(a, c, step);
    } else if c == [] {
      assert a + c == a;
      assert Process(a, step).appended + [] == Process(a, step).appended;
    } else {
      var init := c[..|c| - 1];
      ProcessConcat(a, init, step);
      assert (a + c)[..|a + c| - 1] == a + init;
      var pa, pi := Process(a, step).appended, Process(init, step).appended;
      if Process(init, step).error.None? && step(c[|c| - 1]).Ok? {
        assert pa + (pi + [step(c[|c| - 1]).value]) == (pa + pi) + [step(c[|c| - 1]).value];
      }
    }
  }

  /** Appending two runs of entries one after the other. */
  lemma FillConcat(b: Buckets, xs: seq<Entry>, ys: seq<Entry>)
    ensures Fill(b, xs + ys) == Fill(Fill(b, xs), ys)
  {
    FoldConcat(b, xs, ys, AddEntry);
  }

  // ---------------------------------------------------------------------------
  // Saving

  /** The files on disk: path to the JSON document written there. */
  class FileStore {
    var files: map<string, Json>

    constructor(files: map<string, Json>)
      ensures this.files == files
    {
      this.files := files;
    }
  }

  /** `json.dump(history)` of one day: item name to the list of its records. */
  function HistoryJson(history: Dict<string, seq<Record>>): Json {
    JObj(seq(|history|, i requires 0 <= i < |history| =>
      (history[i].0, JArr(seq(|history[i].1|, j requires 0 <= j < |history[i].1| => JObj(history[i].1[j]))))))
  }

  /** The file of one day under a directory prefix ending in `/price_history_`. */
  function DayPath(prefix: string, day: string): string {
    prefix + day + ".json"
  }

  /** Different days of one run go to different files. */
  lemma DayPathInjective(prefix: string, a: string, b: string)
    requires DayPath(prefix, a) == DayPath(prefix, b)
    ensures a == b
  {
    var pa, pb := DayPath(prefix, a), DayPath(prefix, b);
    assert |a| == |b|;
    forall k | 0 <= k < |a| ensures a[k] == b[k] {
      assert pa[|prefix| + k] == a[k] && pb[|prefix| + k] == b[k];
    }
  }

  /** The files after saving `history`: a day's file is written only if it does not exist. */
  function SaveAll(files: map<string, Json>, history: Buckets, prefix: string): map<string, Json> {
    if history == [] then files
    else
      var f := SaveAll(files, history[..|history| - 1], prefix);
      var (day, h) := history[|history| - 1];
      var path := DayPath(prefix, day);
      if path in f then f else f[path := HistoryJson(h)]
  }

  /** Saving never rewrites an existing file. */
  lemma {:induction false} SaveAllKeeps(files: map<string, Json>, history: Buckets, prefix: string)
    ensures forall p :: p in files ==> p in SaveAll(files, history, prefix) && SaveAll(files, history, prefix)[p] == files[p]
  {
    if history != [] {
      SaveAllKeeps(files, history[..|history| - 1], prefix);
    }
  }

  /** After saving, every day has its file. */
  lemma {:induction false} SaveAllWrites(files: map<string, Json>, history: Buckets, prefix: string)
    ensures forall i :: 0 <= i < |history| ==> DayPath(prefix, history[i].0) in SaveAll(files, history, prefix)
  {
    if history != [] {
      var init := history[..|history| - 1];
      SaveAllWrites(files, init, prefix);
      forall i | 0 <= i < |history| ensures DayPath(prefix, history[i].0) in SaveAll(files, history, prefix) {
        if i < |init| { assert history[i] == init[i]; }
      }
    }
  }

  /** Saving creates no file but those of the days. */
  lemma {:induction false} SaveAllOnly(files: map<string, Json>, history: Buckets, prefix: string)
    ensures forall p :: p in SaveAll(files, history, prefix) ==>
      p in files || exists i :: 0 <= i < |history| && p == DayPath(prefix, history[i].0)
  {
    if history != [] {
      var init := history[..|history| - 1];
      SaveAllOnly(files, init, prefix);
      var f := SaveAll(files, init, prefix);
      forall p | p in SaveAll(files, history, prefix)
        ensures p in files || exists i :: 0 <= i < |history| && p == DayPath(prefix, history[i].0)
      {
        if p !in f {
          assert p == DayPath(prefix, history[|history| - 1].0);
        } else if p !in files {
          var i :| 0 <= i < |init| && p == DayPath(prefix, init[i].0);
          assert history[i] == init[i];
        }
      }
    }
  }

  /** A day whose file did not exist has its own history written there. */
  lemma {:induction false} SaveAllContents(files: map<string, Json>, history: Buckets, prefix: string)
    requires DistinctKeys(history)
    ensures forall i :: 0 <= i < |history| && DayPath(prefix, history[i].0) !in files ==>
      DayPath(prefix, history[i].0) in SaveAll(files, history, prefix) &&
      SaveAll(files, history, prefix)[DayPath(prefix, history[i].0)] == HistoryJson(history[i].1)
  {
    SaveAllWrites(files, history, prefix);
    if history != [] {
      var init := history[..|history| - 1];
      var (day, h) := history[|history| - 1];
      assert DistinctKeys(init) by {
        forall i, j | 0 <= i < j < |init| ensures init[i].0 != init[j].0 {
          assert init[i] == history[i] && init[j] == history[j];
        }
      }
      SaveAllContents(files, init, prefix);
      SaveAllOnly(files, init, prefix);
      var f := SaveAll(files, init, prefix);
      forall i | 0 <= i < |history| && DayPath(prefix, history[i].0) !in files
        ensures SaveAll(files, history, prefix)[DayPath(prefix, history[i].0)] == HistoryJson(history[i].1)
      {
        if i < |init| {
          assert history[i] == init[i];
          if DayPath(prefix, init[i].0) == DayPath(prefix, day) {
            DayPathInjective(prefix, init[i].0, day);
          }
        } else {
          var p := DayPath(prefix, day);
          if p in f {
            var k :| 0 <= k < |init| && p == DayPath(prefix, init[k].0);
            DayPathInjective(prefix, init[k].0, day);
          }
        }
      }
    }
  }

  /** The loop of `save_price_history` over the days, given the directory prefix. */
  method SaveDays(store: FileStore, history: Buckets, prefix: string)
    modifies store
    ensures store.files == SaveAll(old(store.files), history, prefix)
  {
    var i := 0;
    while i < |history|
      invariant 0 <= i <= |history|
      invariant store.files == SaveAll(old(store.files), history[..i], prefix)
    {
      var (day, h) := history[i];
      var filename := DayPath(prefix, day);
      assert history[..i + 1][..i] == history[..i];
      if filename !in store.files {
        store.files := store.files[filename := HistoryJson(h)];
      }
      i := i + 1;
    }
    assert history[..i] == history;
  }
}
