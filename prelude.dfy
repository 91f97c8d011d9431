/** Shared value types: optional values, Python exceptions as error results,
    similarity scores and JSON values. */
module Prelude {

  datatype Option<T> = None | Some(value: T) {
    function GetOr(default: T): T {
      match this
      case Some(v) => v
      case None => default
    }
  }

  /** A Python call either returns a value or raises; `error` names the exception. */
  datatype Result<T> = Ok(value: T) | Err(error: string)

  /** A similarity ratio as returned by a fuzzy string matcher: 0..100. */
  type Score = x: int | 0 <= x <= 100

  type byte = x: int | 0 <= x < 256
  type bytes = seq<byte>

  /** A decoded JSON document. Objects keep their key order (Python dicts do).
      Numbers are integers only: floating point is not modelled. */
  datatype Json =
    | JNull
    | JBool(b: bool)
    | JInt(i: int)
    | JStr(s: string)
    | JArr(items: seq<Json>)
    | JObj(fields: seq<(string, Json)>)

  function Max(a: int, b: int): int { if a < b then b else a }

  /** A prefix one longer is the prefix with the next element appended. */
  lemma TakeSnoc<T>(s: seq<T>, j: int)
    requires 0 <= j < |s|
    ensures s[..j + 1] == s[..j] + [s[j]]
  {
  }

  /** Python's `s[:n]`: a negative `n` counts from the end, and the slice never overruns. */
  function SliceTo<T>(s: seq<T>, n: int): (r: seq<T>)
    ensures |r| <= |s| && r == s[..|r|]
    ensures n >= 0 ==> |r| == if n < |s| then n else |s|
    ensures n < 0 ==> |r| == Max(|s| + n, 0)
  {
    if n >= 0 then (if n < |s| then s[..n] else s)
    else if |s| + n > 0 then s[..|s| + n] else []
  }

  /** `[x for x in s if test(x)]` where a test can raise: every element is checked in order, and
      the first test that raises makes the comprehension raise. */
  function Keep<T>(s: seq<T>, test: T -> Result<bool>): Result<seq<T>> {
    if s == [] then Ok([])
    else match test(s[0])
      case Err(e) => Err(e)
      case Ok(b) =>
        var rest := Keep(s[1..], test);
        if rest.Err? then rest
        else Ok(if b then [s[0]] + rest.value else rest.value)
  }

  /** The comprehension raises exactly when some test raises, with the first such error; otherwise
      it keeps exactly the elements whose test holds, never more than there were. */
  lemma {:induction false} KeepSpec<T>(s: seq<T>, test: T -> Result<bool>)
    ensures Keep(s, test).Err? <==> exists i :: 0 <= i < |s| && test(s[i]).Err?
    ensures Keep(s, test).Err? ==>
      exists i :: 0 <= i < |s| && test(s[i]) == Err(Keep(s, test).error) && forall j :: 0 <= j < i ==> test(s[j]).Ok?
    ensures Keep(s, test).Ok? ==> |Keep(s, test).value| <= |s|
    ensures Keep(s, test).Ok? ==> forall x :: x in Keep(s, test).value <==> x in s && test(x) == Ok(true)
  {
    if s != [] {
      KeepSpec(s[1..], test);
      assert forall i :: 1 <= i < |s| ==> s[i] == s[1..][i - 1];
      assert s == [s[0]] + s[1..];
      var r := Keep(s[1..], test);
      if test(s[0]).Ok? && r.Err? {
        var i :| 0 <= i < |s[1..]| && test(s[1..][i]) == Err(r.error) && forall j :: 0 <= j < i ==> test(s[1..][j]).Ok?;
        assert test(s[i + 1]) == Err(r.error);
      }
    }
  }

  /** The first element whose test raises decides the comprehension's error. */
  lemma {:induction false} KeepFirstError<T>(s: seq<T>, test: T -> Result<bool>, i: int)
    requires 0 <= i < |s| && test(s[i]).Err?
    requires forall j :: 0 <= j < i ==> test(s[j]).Ok?
    ensures Keep(s, test) == Err(test(s[i]).error)
  {
    if i > 0 {
      assert forall j :: 0 <= j < i - 1 ==> s[1..][j] == s[j + 1];
      KeepFirstError(s[1..], test, i - 1);
    }
  }

  /** The comprehension distributes over concatenation: the kept elements stay in order. */
  lemma {:induction false} KeepAppend<T>(a: seq<T>, b: seq<T>, test: T -> Result<bool>)
    requires Keep(a, test).Ok? && Keep(b, test).Ok?
    ensures Keep(a + b, test) == Ok(Keep(a, test).value + Keep(b, test).value)
  {
    if a == [] {
      var y := Keep(b, test).value;
      assert a + b == b && Keep(a, test) == Ok([]) && [] + y == y;
    } else {
      assert (a + b)[0] == a[0] && (a + b)[1..] == a[1..] + b;
      KeepAppend(a[1..], b, test);
      var x, y := Keep(a[1..], test).value, Keep(b, test).value;
      assert [a[0]] + (x + y) == ([a[0]] + x) + y;
    }
  }

  /** On one element the comprehension keeps it, drops it, or raises, as its test says; with
      `KeepAppend` and the empty case this pins the comprehension down element by element. */
  lemma KeepSingle<T>(x: T, test: T -> Result<bool>)
    ensures test(x).Err? ==> Keep([x], test) == Err(test(x).error)
    ensures test(x) == Ok(true) ==> Keep([x], test) == Ok([x])
    ensures test(x) == Ok(false) ==> Keep([x], test) == Ok([])
  {
    assert [x][1..] == [];
    assert [x] + [] == [x];
  }

  /** Filtering with `p`, which never raises, then with `q` is one comprehension whose test is
      `q` on the elements `p` keeps: `[x for x in [y for y in s if p(y)] if q(x)]` is
      `[x for x in s if p(x) and q(x)]`, order and first error included. */
  lemma {:induction false} KeepKeep<T>(s: seq<T>, p: T -> Result<bool>, q: T -> Result<bool>, both: T -> Result<bool>)
    requires forall x :: p(x).Ok?
    requires forall x :: both(x) == (if p(x) == Ok(true) then q(x) else Ok(false))
    ensures Keep(s, p).Ok?
    ensures Keep(Keep(s, p).value, q) == Keep(s, both)
  {
    if s != [] {
      KeepKeep(s[1..], p, q, both);
      var k := Keep(s[1..], p).value;
      if p(s[0]) == Ok(true) {
        assert Keep(s, p).value == [s[0]] + k;
        assert ([s[0]] + k)[0] == s[0] && ([s[0]] + k)[1..] == k;
      }
    }
  }

  /** A test that always holds keeps everything. */
  lemma {:induction false} KeepAll<T>(s: seq<T>, test: T -> Result<bool>)
    requires forall x :: x in s ==> test(x) == Ok(true)
    ensures Keep(s, test) == Ok(s)
  {
    if s != [] {
      assert forall x :: x in s[1..] ==> x in s;
      KeepAll(s[1..], test);
      assert s == [s[0]] + s[1..];
    }
  }
}
