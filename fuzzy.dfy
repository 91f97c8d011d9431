/** The fuzzy item-name resolver shared word for word by
    market_engine/modules/Models/MarketDatabase.py and market_engine/modules/MarketData.py:
    `closest_common_word`, `remove_common_words`, `remove_blueprint`, `replace_aliases`
    and the scan of `find_best_match`. The string-similarity ratio is a parameter. */
module Fuzzy {
  import opened Prelude
  import opened Text

  /** A similarity ratio between two strings, 0..100 (the fuzzy matcher's `ratio`). */
  type Ratio = (string, string) -> Score

  /** The noise words `find_best_match` strips from every name. */
  const CommonWords: set<string> := {"arcane", "prime", "scene", "set"}
  /** Words that keep a trailing "blueprint". */
  const BlueprintExempt: seq<string> := ["prime", "wraith", "vandal"]
  /** Words never stripped although they resemble a noise word. */
  const IgnoreList: seq<string> := ["primed"]
  const CommonThreshold := 80
  const AliasThreshold := 80

  // ---------------------------------------------------------------------------
  // closest_common_word

  /** The common word with the highest ratio to `word`, when that ratio is positive and reaches
      `threshold`. The set is scanned in an unspecified order; the outcome does not depend on it. */
  method ClosestCommonWord(word: string, commonWords: set<string>, threshold: int, ratio: Ratio)
    returns (r: Option<string>)
    ensures r.Some? <==> exists c :: c in commonWords && ratio(word, c) > 0 && ratio(word, c) >= threshold
    ensures r.Some? ==> r.value in commonWords
    ensures r.Some? ==> forall c :: c in commonWords ==> ratio(word, c) <= ratio(word, r.value)
  {
    var bestMatch: Option<string> := None;
    var bestScore := 0;
    var remaining := commonWords;
    while remaining != {}
      invariant remaining <= commonWords
      invariant bestMatch.None? ==> bestScore == 0
      invariant bestMatch.Some? ==> bestMatch.value in commonWords - remaining
      invariant bestMatch.Some? ==> bestScore == ratio(word, bestMatch.value) > 0
      invariant forall c :: c in commonWords - remaining ==> ratio(word, c) <= bestScore
      decreases remaining
    {
      var c :| c in remaining;
      var score := ratio(word, c);
      if score > bestScore {
        bestMatch, bestScore := Some(c), score;
      }
      remaining := remaining - {c};
    }
    r := if bestScore >= threshold then bestMatch else None;
  }

  // ---------------------------------------------------------------------------
  // remove_blueprint

  /** `remove_blueprint`: lower-case the text and drop a final word "blueprint" unless the
      word before it is exempt. A lone "blueprint" has no word before it: IndexError. */
  function RemoveBlueprint(s: string): (r: Result<string>)
    ensures r.Err? <==> Words(Lower(s)) == ["blueprint"]
    ensures r.Ok? ==>
      var ws := Words(Lower(s));
      if |ws| >= 2 && ws[|ws| - 1] == "blueprint" && ws[|ws| - 2] !in BlueprintExempt
      then r.value == JoinSpace(ws[..|ws| - 1]) && Words(r.value) == ws[..|ws| - 1]
      else r.value == Lower(s)
  {
    var words := Words(Lower(s));
    if |words| >= 1 && words[|words| - 1] == "blueprint" then
      if |words| == 1 then Err("IndexError")
      else if words[|words| - 2] !in BlueprintExempt then
        var init := words[..|words| - 1];
        assert forall w :: w in init ==> w in words;
        WordsOfJoin(init);
        Ok(JoinSpace(init))
      else Ok(Lower(s))
    else Ok(Lower(s))
  }

  // ---------------------------------------------------------------------------
  // remove_common_words

  /** `closest_common_word(word, common, 80)` is truthy for a word. */
  ghost predicate IsCommon(word: string, commonWords: set<string>, ratio: Ratio) {
    exists c :: c in commonWords && ratio(word, c) > 0 && ratio(word, c) >= CommonThreshold
  }

  /** The words `remove_common_words` drops. */
  ghost predicate Dropped(word: string, commonWords: set<string>, ratio: Ratio) {
    IsCommon(word, commonWords, ratio) && word !in IgnoreList
  }

  /** The words `remove_common_words` keeps, in order. */
  ghost function Kept(words: seq<string>, commonWords: set<string>, ratio: Ratio): seq<string> {
    if words == [] then []
    else
      var last := words[|words| - 1];
      Kept(words[..|words| - 1], commonWords, ratio) + (if Dropped(last, commonWords, ratio) then [] else [last])
  }

  /** What `remove_common_words` returns for `name`. */
  ghost function CleanName(name: string, commonWords: set<string>, ratio: Ratio): Result<string> {
    match RemoveBlueprint(name)
    case Err(e) => Err(e)
    case Ok(s) => Ok(JoinSpace(Kept(Words(s), commonWords, ratio)))
  }

  /** Keeping distributes over concatenation: the survivors stay in their original order. */
  lemma {:induction false} KeptAppend(a: seq<string>, b: seq<string>, commonWords: set<string>, ratio: Ratio)
    ensures Kept(a + b, commonWords, ratio) == Kept(a, commonWords, ratio) + Kept(b, commonWords, ratio)
    decreases |b|
  {
    if b != [] {
      var n := |b| - 1;
      assert (a + b)[..|a + b| - 1] == a + b[..n];
      KeptAppend(a, b[..n], commonWords, ratio);
    } else {
      assert a + b == a;
    }
  }

  /** A word survives exactly when it is not a common word, or it is on the ignore list. */
  lemma {:induction false} KeptMembers(words: seq<string>, commonWords: set<string>, ratio: Ratio, w: string)
    ensures w in Kept(words, commonWords, ratio) <==> w in words && !Dropped(w, commonWords, ratio)
  {
    if words != [] {
      var init := words[..|words| - 1];
      KeptMembers(init, commonWords, ratio, w);
      assert words == init + [words[|words| - 1]];
    }
  }

  /** `remove_common_words`. */
  method RemoveCommonWords(name: string, commonWords: set<string>, ratio: Ratio) returns (r: Result<string>)
    requires "" !in commonWords
    ensures r == CleanName(name, commonWords, ratio)
  {
    var stripped := RemoveBlueprint(name);
    if stripped.Err? {
      return Err(stripped.error);
    }
    var words := Words(stripped.value);
    var filtered: seq<string> := [];
    var i := 0;
    while i < |words|
      invariant 0 <= i <= |words|
      invariant filtered == Kept(words[..i], commonWords, ratio)
    {
      var closest := ClosestCommonWord(words[i], commonWords, CommonThreshold, ratio);
      var truthy := closest.Some? && closest.value != "";
      if !(truthy && words[i] !in IgnoreList) {
        filtered := filtered + [words[i]];
      }
      assert words[..i + 1][..i] == words[..i];
      i := i + 1;
    }
    assert words[..|words|] == words;
    r := Ok(JoinSpace(filtered));
  }

  // ---------------------------------------------------------------------------
  // replace_aliases

  /** The replacement of the first alias, in dictionary order, whose ratio to `word` reaches `threshold`. */
  function FirstAlias(word: string, aliases: seq<(string, string)>, threshold: int, ratio: Ratio): (r: Option<string>)
    ensures r.Some? <==> exists k :: 0 <= k < |aliases| && ratio(word, aliases[k].0) >= threshold
    ensures r.Some? ==> exists k :: 0 <= k < |aliases| && ratio(word, aliases[k].0) >= threshold
                                  && aliases[k].1 == r.value
                                  && forall j :: 0 <= j < k ==> ratio(word, aliases[j].0) < threshold
  {
    if aliases == [] then None
    else if ratio(word, aliases[0].0) >= threshold then
      Some(aliases[0].1)
    else
      var r := FirstAlias(word, aliases[1..], threshold, ratio);
      assert forall k :: 1 <= k < |aliases| ==> aliases[k] == aliases[1..][k - 1];
      r
  }

  /** The words of `replace_aliases`: each word becomes its first matching alias's target. */
  function ReplacedWords(words: seq<string>, aliases: seq<(string, string)>, threshold: int, ratio: Ratio): seq<string> {
    seq(|words|, i requires 0 <= i < |words| => FirstAlias(words[i], aliases, threshold, ratio).GetOr(words[i]))
  }

  /** `replace_aliases`: one output word per input word. */
  method ReplaceAliases(name: string, aliases: seq<(string, string)>, threshold: int, ratio: Ratio) returns (r: string)
    ensures r == JoinSpace(ReplacedWords(Words(name), aliases, threshold, ratio))
  {
    var words := Words(name);
    var newWords: seq<string> := [];
    var i := 0;
    while i < |words|
      invariant 0 <= i <= |words|
      invariant |newWords| == i
      invariant forall k :: 0 <= k < i ==> newWords[k] == FirstAlias(words[k], aliases, threshold, ratio).GetOr(words[k])
    {
      var word := words[i];
      var replacement: Option<string> := None;
      var j := 0;
      while j < |aliases| && replacement.None?
        invariant 0 <= j <= |aliases|
        invariant replacement.None? ==> forall m :: 0 <= m < j ==> ratio(word, aliases[m].0) < threshold
        invariant replacement.Some? ==> replacement == FirstAlias(word, aliases, threshold, ratio)
      {
        if ratio(word, aliases[j].0) >= threshold {
          FirstAliasAt(word, aliases, threshold, ratio, j);
          replacement := Some(aliases[j].1);
        }
        j := j + 1;
      }
      newWords := newWords + [replacement.GetOr(word)];
      i := i + 1;
    }
    assert newWords == ReplacedWords(words, aliases, threshold, ratio);
    r := JoinSpace(newWords);
  }

  /** When alias `j` is the first to match, it is the one `FirstAlias` picks. */
  lemma {:induction false} FirstAliasAt(word: string, aliases: seq<(string, string)>, threshold: int, ratio: Ratio, j: nat)
    requires j < |aliases| && ratio(word, aliases[j].0) >= threshold
    requires forall m :: 0 <= m < j ==> ratio(word, aliases[m].0) < threshold
    ensures FirstAlias(word, aliases, threshold, ratio) == Some(aliases[j].1)
  {
    if j > 0 {
      FirstAliasAt(word, aliases[1..], threshold, ratio, j - 1);
    }
  }

  // ---------------------------------------------------------------------------
  // find_best_match: the scan over the catalog

  /** The cleaned names of one catalog entry, in order; cleaning the names one after the other,
      the first name whose cleaning raises makes the whole list raise. */
  ghost function CleanAll(names: seq<string>, ratio: Ratio): Result<seq<string>> {
    if names == [] then Ok([])
    else match CleanName(names[0], CommonWords, ratio)
      case Err(e) => Err(e)
      case Ok(c) =>
        var rest := CleanAll(names[1..], ratio);
        if rest.Err? then Err(rest.error) else Ok([c] + rest.value)
  }

  /** The cleaned list holds each name's cleaning in place; its error is the first name's error. */
  lemma {:induction false} CleanAllSpec(names: seq<string>, ratio: Ratio)
    ensures var r := CleanAll(names, ratio);
      (r.Err? ==> exists i :: 0 <= i < |names| && CleanName(names[i], CommonWords, ratio) == Err(r.error)
                              && forall k :: 0 <= k < i ==> CleanName(names[k], CommonWords, ratio).Ok?)
      && (r.Ok? ==> |r.value| == |names|
                    && forall i :: 0 <= i < |names| ==> CleanName(names[i], CommonWords, ratio) == Ok(r.value[i]))
  {
    if names != [] && CleanName(names[0], CommonWords, ratio).Ok? {
      var rest := CleanAll(names[1..], ratio);
      CleanAllSpec(names[1..], ratio);
      if rest.Err? {
        var i :| 0 <= i < |names[1..]| && CleanName(names[1..][i], CommonWords, ratio) == Err(rest.error)
                 && forall k :: 0 <= k < i ==> CleanName(names[1..][k], CommonWords, ratio).Ok?;
        assert CleanName(names[i + 1], CommonWords, ratio) == Err(rest.error);
      }
    }
  }

  /** The first name whose cleaning raises decides the error of the whole list. */
  lemma CleanAllStops(names: seq<string>, ratio: Ratio, i: int)
    requires 0 <= i < |names| && CleanName(names[i], CommonWords, ratio).Err?
    requires forall k :: 0 <= k < i ==> CleanName(names[k], CommonWords, ratio).Ok?
    ensures CleanAll(names, ratio) == Err(CleanName(names[i], CommonWords, ratio).error)
  {
    CleanAllSpec(names, ratio);
  }

  /** When every name cleans, the list is the cleaned names in order. */
  lemma CleanAllDone(names: seq<string>, ratio: Ratio, cleaned: seq<string>)
    requires |cleaned| == |names|
    requires forall k :: 0 <= k < |names| ==> CleanName(names[k], CommonWords, ratio) == Ok(cleaned[k])
    ensures CleanAll(names, ratio) == Ok(cleaned)
  {
    CleanAllSpec(names, ratio);
    var r := CleanAll(names, ratio);
    if r.Err? {
      assert false;
    }
    assert r.value == cleaned;
  }

  /** `max(ratio(q, p) for p in ps)`. */
  function MaxRatio(q: string, ps: seq<string>, ratio: Ratio): (r: Score)
    requires ps != []
    ensures exists i :: 0 <= i < |ps| && r == ratio(q, ps[i])
    ensures forall i :: 0 <= i < |ps| ==> ratio(q, ps[i]) <= r
  {
    if |ps| == 1 then ratio(q, ps[0])
    else
      var init := ps[..|ps| - 1];
      var m := MaxRatio(q, init, ratio);
      assert forall i :: 0 <= i < |init| ==> init[i] == ps[i];
      if m < ratio(q, ps[|ps| - 1]) then ratio(q, ps[|ps| - 1]) else m
  }

  /** The score of one catalog entry against the cleaned query: the best ratio over its cleaned
      names. Cleaning can raise, and `max` of no names raises ValueError. */
  ghost function ItemScore(q: string, names: seq<string>, ratio: Ratio): Result<Score> {
    match CleanAll(names, ratio)
    case Err(e) => Err(e)
    case Ok(ps) => if ps == [] then Err("ValueError") else Ok(MaxRatio(q, ps, ratio))
  }

  /** The per-entry step of `find_best_match`. */
  method ItemMaxScore(q: string, names: seq<string>, ratio: Ratio) returns (r: Result<Score>)
    ensures r == ItemScore(q, names, ratio)
  {
    var processed: seq<string> := [];
    var i := 0;
    while i < |names|
      invariant 0 <= i <= |names|
      invariant |processed| == i
      invariant forall k :: 0 <= k < i ==> CleanName(names[k], CommonWords, ratio) == Ok(processed[k])
    {
      var cleaned := RemoveCommonWords(names[i], CommonWords, ratio);
      if cleaned.Err? {
        CleanAllStops(names, ratio, i);
        return Err(cleaned.error);
      }
      processed := processed + [cleaned.value];
      i := i + 1;
    }
    CleanAllDone(names, ratio, processed);
    if processed == [] {
      return Err("ValueError");
    }
    r := Ok(MaxRatio(q, processed, ratio));
  }

  /** The scoring of `find_best_match` for the cleaned query `q`: each entry is scored on its names. */
  ghost function ScoreOf<T>(q: string, names: T -> seq<string>, ratio: Ratio): T -> Result<Score> {
    item => ItemScore(q, names(item), ratio)
  }

  /** Every entry before `j` was scored without error and below 100, so the scan reached entry `j`. */
  ghost predicate Reached<T>(items: seq<T>, score: T -> Result<Score>, j: int)
    requires 0 <= j <= |items|
  {
    forall k :: 0 <= k < j ==> score(items[k]).Ok? && score(items[k]).value < 100
  }

  /** The outcome of `find_best_match`'s scan of `items` under the scoring `score`:
      - it raises the error of the first reached entry whose scoring raises;
      - otherwise the score is at least every entry's score, it is 0 exactly when there is no
        best entry, and the best entry is the first one reaching that score. */
  ghost predicate IsBestMatch<T>(items: seq<T>, score: T -> Result<Score>, r: Result<(int, Option<T>)>) {
    (r.Err? <==> exists j :: 0 <= j < |items| && Reached(items, score, j) && score(items[j]).Err?)
    && (r.Err? ==> exists j :: 0 <= j < |items| && Reached(items, score, j) && score(items[j]) == Err(r.error))
    && (r.Ok? ==>
          var (best, item) := r.value;
          0 <= best <= 100
          && (item.None? <==> best == 0)
          && (forall j :: 0 <= j < |items| && score(items[j]).Ok? ==> score(items[j]).value <= best)
          && (item.Some? ==> exists k :: 0 <= k < |items| && Reached(items, score, k) && items[k] == item.value
                                       && score(items[k]) == Ok(best)
                                       && forall j :: 0 <= j < k ==> score(items[j]).value < best))
  }

  /** The score of one catalog entry, as `find_best_match` computes it. */
  method ScoreEntry<T>(q: string, item: T, names: T -> seq<string>, ratio: Ratio) returns (r: Result<Score>)
    ensures r == ScoreOf(q, names, ratio)(item)
  {
    r := ItemMaxScore(q, names(item), ratio);
  }

  /** A scan that stops at entry `i` because its scoring raises. */
  lemma ScanRaises<T>(items: seq<T>, score: T -> Result<Score>, i: nat, e: string)
    requires i < |items| && Reached(items, score, i)
    requires score(items[i]) == Err(e)
    ensures IsBestMatch(items, score, Err(e))
  {
  }

  /** A scan that has scored the first `n` entries and either saw them all or reached 100. */
  lemma ScanReturns<T>(items: seq<T>, score: T -> Result<Score>, n: nat, best: int, item: Option<T>, bestIndex: nat)
    requires n <= |items|
    requires forall j :: 0 <= j < n ==> score(items[j]).Ok? && score(items[j]).value <= best
    requires n == |items| || best == 100
    requires 0 <= best <= 100
    requires item.None? <==> best == 0
    requires item.Some? ==> bestIndex < n && items[bestIndex] == item.value && score(items[bestIndex]) == Ok(best)
                            && forall j :: 0 <= j < bestIndex ==> score(items[j]).value < best
    ensures IsBestMatch(items, score, Ok((best, item)))
  {
    forall j | n <= j < |items| ensures !Reached(items, score, j) {
      assert score(items[bestIndex]).value == 100;
    }
    if item.Some? {
      assert Reached(items, score, bestIndex);
    }
  }

  /** The loop invariant of `find_best_match`'s scan after `i` entries: each was scored without
      error and below 100, the best score bounds them all, and the best entry is the first to
      reach it. */
  ghost predicate ScanInv<T>(items: seq<T>, score: T -> Result<Score>, i: int, best: int, item: Option<T>, bestIndex: int) {
    0 <= i <= |items|
    && Reached(items, score, i)
    && 0 <= best < 100
    && (item.None? <==> best == 0)
    && (forall j :: 0 <= j < i ==> score(items[j]).Ok? && score(items[j]).value <= best)
    && (item.Some? ==> 0 <= bestIndex < i && items[bestIndex] == item.value && score(items[bestIndex]) == Ok(best)
                       && forall j :: 0 <= j < bestIndex ==> score(items[j]).value < best)
  }

  /** One step of the scan with entry `i` scoring `s`: a strictly higher score takes over; a best
      of 100 ends the scan with its outcome, otherwise the invariant holds one entry further. */
  lemma ScanStep<T>(items: seq<T>, score: T -> Result<Score>, i: int, best: int, item: Option<T>, bestIndex: int, s: Score)
    requires ScanInv(items, score, i, best, item, bestIndex) && i < |items| && score(items[i]) == Ok(s)
    ensures var (b, it, bi) := if s > best then (s, Some(items[i]), i) else (best, item, bestIndex);
      if b == 100 then IsBestMatch(items, score, Ok((b, it)))
      else ScanInv(items, score, i + 1, b, it, bi)
  {
    var (b, it, bi) := if s > best then (s, Some(items[i]), i) else (best, item, bestIndex);
    if b == 100 {
      ScanReturns(items, score, i + 1, b, it, bi);
    }
  }

  /** The loop of `find_best_match` over `items`, whose names are `names(item)`. A strict `>`
      keeps the earlier of two equal scores; a score of 100 ends the scan. */
  method ScanCatalog<T>(q: string, items: seq<T>, names: T -> seq<string>, ratio: Ratio) returns (r: Result<(int, Option<T>)>)
    ensures IsBestMatch(items, ScoreOf(q, names, ratio), r)
  {
    ghost var f := ScoreOf(q, names, ratio);
    var bestScore := 0;
    var bestItem: Option<T> := None;
    ghost var bestIndex := 0;
    var i := 0;
    while i < |items|
      invariant ScanInv(items, f, i, bestScore, bestItem, bestIndex)
    {
      var score := ScoreEntry(q, items[i], names, ratio);
      if score.Err? {
        ScanRaises(items, f, i, score.error);
        return Err(score.error);
      }
      ScanStep(items, f, i, bestScore, bestItem, bestIndex, score.value);
      if score.value > bestScore {
        bestScore, bestItem, bestIndex := score.value, Some(items[i]), i;
      }
      if bestScore == 100 {
        return Ok((bestScore, bestItem));
      }
      i := i + 1;
    }
    ScanReturns(items, f, i, bestScore, bestItem, bestIndex);
    r := Ok((bestScore, bestItem));
  }

  /** The scan's outcome is determined by the catalog and its scoring alone. */
  lemma BestMatchUnique<T>(items: seq<T>, score: T -> Result<Score>, r1: Result<(int, Option<T>)>, r2: Result<(int, Option<T>)>)
    requires IsBestMatch(items, score, r1) && IsBestMatch(items, score, r2)
    ensures r1 == r2
  {
    if r1.Err? {
      var j1 :| 0 <= j1 < |items| && Reached(items, score, j1) && score(items[j1]) == Err(r1.error);
      var j2 :| 0 <= j2 < |items| && Reached(items, score, j2) && score(items[j2]) == Err(r2.error);
      assert j1 == j2;
    } else {
      var (s1, b1) := r1.value;
      var (s2, b2) := r2.value;
      assert b1.Some? ==> s1 <= s2 by {
        if b1.Some? {
          var k1 :| 0 <= k1 < |items| && score(items[k1]) == Ok(s1);
        }
      }
      assert b2.Some? ==> s2 <= s1 by {
        if b2.Some? {
          var k2 :| 0 <= k2 < |items| && score(items[k2]) == Ok(s2);
        }
      }
      if b1.Some? {
        var k1 :| 0 <= k1 < |items| && Reached(items, score, k1) && items[k1] == b1.value && score(items[k1]) == Ok(s1)
                  && forall j :: 0 <= j < k1 ==> score(items[j]).value < s1;
        var k2 :| 0 <= k2 < |items| && Reached(items, score, k2) && items[k2] == b2.value && score(items[k2]) == Ok(s2)
                  && forall j :: 0 <= j < k2 ==> score(items[j]).value < s2;
        assert k1 == k2;
      }
    }
  }

  // ---------------------------------------------------------------------------
  // The query side of find_best_match and the acceptance gate of _get_fuzzy_item

  /** The query `find_best_match` scores entries against: aliases replaced, then cleaned. */
  ghost function CleanQuery(itemName: string, aliases: seq<(string, string)>, ratio: Ratio): Result<string> {
    CleanName(JoinSpace(ReplacedWords(Words(itemName), aliases, AliasThreshold, ratio)), CommonWords, ratio)
  }

  /** `best_item if best_score > 50 else None`, with the scan's error passed on. */
  function Gate<T>(m: Result<(int, Option<T>)>): Result<Option<T>> {
    match m
    case Err(e) => Err(e)
    case Ok((best, item)) => Ok(if best > 50 then item else None)
  }

  /** `r` is what the gate makes of the scan's outcome. */
  ghost predicate IsAccepted<T(!new)>(items: seq<T>, score: T -> Result<Score>, r: Result<Option<T>>) {
    exists m :: IsBestMatch(items, score, m) && r == Gate(m)
  }

  /** An entry is accepted exactly when some entry scores above 50, and then it is an entry of the
      catalog whose score is the highest of all. */
  lemma GateSpec<T(!new)>(items: seq<T>, score: T -> Result<Score>, r: Result<Option<T>>)
    requires IsAccepted(items, score, r) && r.Ok?
    ensures r.value.Some? <==> exists j :: 0 <= j < |items| && score(items[j]).Ok? && score(items[j]).value > 50
    ensures r.value.Some? ==> exists k :: 0 <= k < |items| && items[k] == r.value.value && score(items[k]).Ok?
                                         && score(items[k]).value > 50
                                         && forall j :: 0 <= j < |items| && score(items[j]).Ok? ==> score(items[j]).value <= score(items[k]).value
  {
    var m :| IsBestMatch(items, score, m) && r == Gate(m);
    var (best, item) := m.value;
    if item.Some? {
      var k :| 0 <= k < |items| && Reached(items, score, k) && items[k] == item.value && score(items[k]) == Ok(best);
    }
  }
}
