/** market_engine/modules/API/ManifestAPI.py (and the identical functions in modules/MarketAPI.py):
    decompressing a possibly truncated multi-frame LZMA manifest index. The LZMA decoder itself is
    a parameter: it either fails or yields one frame. */
module ManifestApi {
  import opened Prelude

  /** What one fresh decompressor yields on `data`: its output, the bytes after the end of its
      stream, and whether the end-of-stream marker was reached. */
  datatype Frame = Frame(output: bytes, unused: bytes, eof: bool)

  /** One fresh decompressor over `data`: None when it raises LZMAError. */
  type Decoder = bytes -> Option<Frame>

  /** What is assumed of the decoder: a frame with leftover bytes consumed at least one byte, and
      the empty input decodes, as an empty stream does, with nothing left over. */
  ghost predicate WellBehaved(decode: Decoder) {
    && (forall d :: decode(d).Some? ==> |decode(d).value.unused| < |d| || decode(d).value.unused == [])
    && decode([]).Some? && decode([]).value.unused == []
  }

  /** `b"".join(results)`. */
  function Concat(parts: seq<bytes>): bytes {
    if parts == [] then [] else Concat(parts[..|parts| - 1]) + parts[|parts| - 1]
  }

  function Outputs(frames: seq<Frame>): (r: seq<bytes>)
    ensures |r| == |frames|
    ensures forall k :: 0 <= k < |frames| ==> r[k] == frames[k].output
  {
    seq(|frames|, k requires 0 <= k < |frames| => frames[k].output)
  }

  /** The decoding of `data`, frame after frame; `started` says whether a frame was already
      decoded, which turns a failure into the end of the input. */
  function DecompressFrom(decode: Decoder, data: bytes, started: bool): Result<bytes>
    requires WellBehaved(decode)
    decreases |data|
  {
    match decode(data)
    case None => if started then Ok([]) else Err("LZMAError")
    case Some(f) =>
      if f.unused == [] then Ok(f.output)
      else if !f.eof then Err("LZMAError")
      else Prepend(f.output, DecompressFrom(decode, f.unused, true))
  }

  /** Output decoded earlier, put in front of the outcome of the rest. */
  function Prepend(done: bytes, r: Result<bytes>): Result<bytes> {
    match r
    case Err(e) => Err(e)
    case Ok(rest) => Ok(done + rest)
  }

  lemma PrependPrepend(a: bytes, b: bytes, r: Result<bytes>)
    ensures Prepend(a, Prepend(b, r)) == Prepend(a + b, r)
  {
    if r.Ok? {
      assert a + (b + r.value) == (a + b) + r.value;
    }
  }

  /** `decompress_lzma(data)`. */
  function Decompress(decode: Decoder, data: bytes): Result<bytes>
    requires WellBehaved(decode)
  {
    DecompressFrom(decode, data, false)
  }

  /** `frames` is what successive fresh decompressors yield: each frame after the first decodes
      the bytes the previous one left over, which reached its end-of-stream marker. */
  predicate IsChain(decode: Decoder, data: bytes, frames: seq<Frame>) {
    && |frames| >= 1
    && decode(data) == Some(frames[0])
    && forall k :: 0 <= k < |frames| - 1 ==>
         frames[k].eof && frames[k].unused != [] && decode(frames[k].unused) == Some(frames[k + 1])
  }

  lemma ConcatCons(p: bytes, parts: seq<bytes>)
    ensures Concat([p] + parts) == p + Concat(parts)
    decreases |parts|
  {
    if parts != [] {
      var init := parts[..|parts| - 1];
      assert ([p] + parts)[..|parts|] == [p] + init;
      ConcatCons(p, init);
    }
  }

  /** The outcome of `decompress_lzma` along a chain of frames, by how the last frame ends:
      with nothing left over, all frames are joined in order; with leftover bytes that do not
      decode, the frames so far are joined; with leftover bytes after a frame that did not
      reach its end-of-stream marker, it raises. */
  lemma {:induction false} ChainOutcome(decode: Decoder, data: bytes, frames: seq<Frame>, started: bool)
    requires WellBehaved(decode)
    requires IsChain(decode, data, frames)
    ensures var last := frames[|frames| - 1];
      && (last.unused == [] ==> DecompressFrom(decode, data, started) == Ok(Concat(Outputs(frames))))
      && (last.unused != [] && !last.eof ==> DecompressFrom(decode, data, started) == Err("LZMAError"))
      && (last.unused != [] && last.eof && decode(last.unused).None? ==>
            DecompressFrom(decode, data, started) == Ok(Concat(Outputs(frames))))
    decreases |frames|
  {
    var f := frames[0];
    if |frames| == 1 {
      assert Outputs(frames) == [f.output];
      assert [f.output][..0] == [];
      assert Concat([f.output]) == f.output;
      if f.unused != [] && f.eof && decode(f.unused).None? {
        assert DecompressFrom(decode, f.unused, true) == Ok([]);
        assert f.output + [] == f.output;
      }
    } else {
      var rest := frames[1..];
      assert IsChain(decode, f.unused, rest) by {
        forall k | 0 <= k < |rest| - 1
          ensures rest[k].eof && rest[k].unused != [] && decode(rest[k].unused) == Some(rest[k + 1])
        {
          assert rest[k] == frames[k + 1] && rest[k + 1] == frames[k + 2];
        }
      }
      ChainOutcome(decode, f.unused, rest, true);
      assert frames[|frames| - 1] == rest[|rest| - 1];
      assert Outputs(frames) == [f.output] + Outputs(rest);
      ConcatCons(f.output, Outputs(rest));
    }
  }

  /** A failure of the first decompressor is raised, whatever follows. */
  lemma FirstFrameError(decode: Decoder, data: bytes)
    requires WellBehaved(decode)
    requires decode(data).None?
    ensures Decompress(decode, data) == Err("LZMAError")
  {
  }

  /** `decompress_lzma`: the loop over fresh decompressors. */
  method DecompressLzma(decode: Decoder, data: bytes) returns (r: Result<bytes>)
    requires WellBehaved(decode)
    ensures r == Decompress(decode, data)
  {
    var results: seq<bytes> := [];
    var rest := data;
    assert forall t: bytes :: Concat(results) + t == t;
    while true
      invariant Decompress(decode, data) == Prepend(Concat(results), DecompressFrom(decode, rest, results != []))
      decreases |rest|
    {
      var res := decode(rest);
      if res.None? {
        if results != [] {
          assert Concat(results) + [] == Concat(results);
          break;
        }
        return Err("LZMAError");
      }
      var f := res.value;
      assert (results + [f.output])[..|results|] == results;
      PrependPrepend(Concat(results), f.output, DecompressFrom(decode, f.unused, true));
      results := results + [f.output];
      rest := f.unused;
      if rest == [] {
        break;
      }
      if !f.eof {
        return Err("LZMAError");
      }
    }
    r := Ok(Concat(results));
  }

  /** The largest length at most `n` whose prefix decodes without raising. */
  function LargestDecodable(decode: Decoder, data: bytes, n: nat): (r: nat)
    requires WellBehaved(decode)
    requires n <= |data|
    ensures r <= n
  {
    if n == 0 || Decompress(decode, data[..n]).Ok? then n
    else LargestDecodable(decode, data, n - 1)
  }

  /** The prefix `fix` settles on decodes, and every longer prefix raises; when the whole buffer
      decodes it is not trimmed at all. */
  lemma {:induction false} LargestDecodableSpec(decode: Decoder, data: bytes, n: nat)
    requires WellBehaved(decode)
    requires n <= |data|
    ensures Decompress(decode, data[..LargestDecodable(decode, data, n)]).Ok?
    ensures forall l :: LargestDecodable(decode, data, n) < l <= n ==> Decompress(decode, data[..l]).Err?
    ensures Decompress(decode, data[..n]).Ok? ==> LargestDecodable(decode, data, n) == n
  {
    if n == 0 {
      assert data[..0] == [];
    } else if Decompress(decode, data[..n]).Err? {
      LargestDecodableSpec(decode, data, n - 1);
    }
  }

  /** `fix` after the download: the length drops by one per failing attempt, and the decoding of
      the largest decodable prefix is returned. */
  method Fix(decode: Decoder, data: bytes) returns (r: bytes)
    requires WellBehaved(decode)
    ensures Decompress(decode, data[..LargestDecodable(decode, data, |data|)]) == Ok(r)
  {
    assert data[..0] == [];
    var length := |data|;
    var stay := true;
    while stay
      invariant 0 <= length <= |data|
      invariant LargestDecodable(decode, data, |data|) == LargestDecodable(decode, data, length)
      invariant Decompress(decode, data[..0]).Ok?
      invariant !stay ==> Decompress(decode, data[..length]).Ok?
      decreases length + (if stay then 1 else 0)
    {
      stay := false;
      var attempt := DecompressLzma(decode, data[..length]);
      if attempt.Err? {
        length := length - 1;
        stay := true;
      }
    }
    LargestDecodableSpec(decode, data, length);
    var out := DecompressLzma(decode, data[..length]);
    r := out.value;
  }
}
