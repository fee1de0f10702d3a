/**
 * `send_response`'s split of a completion: the Python code blocks offered to run, and the
 * message-sized chunks the reply is sent in.
 */
module ResponseSplit {
  import opened Wrappers
  import opened TextUtil

  const Fence := "```"
  const Python := "python"
  /** Discord's limit on the length of one message. */
  const ChunkSize: nat := 2000

  /** The pieces at odd indices of a split at the fence: the text inside each fenced block. */
  function OddPieces(parts: seq<string>): (r: seq<string>)
    ensures |r| == |parts| / 2
    ensures forall k :: 0 <= k < |r| ==> r[k] == parts[2 * k + 1]
  {
    seq(|parts| / 2, k requires 0 <= k < |parts| / 2 => parts[2 * k + 1])
  }

  /** The code a block contributes: the text after `python`, stripped, if the block starts so. */
  function BlockCode(piece: string): seq<string> {
    if StartsWith(piece, Python) then [Strip(piece[|Python|..])] else []
  }

  /** The code of each block tagged `python`, in order. */
  function PythonBlocks(pieces: seq<string>): (r: seq<string>)
    ensures |r| <= |pieces|
    decreases |pieces|
  {
    if |pieces| == 0 then []
    else PythonBlocks(pieces[..|pieces| - 1]) + BlockCode(pieces[|pieces| - 1])
  }

  /** `code` is the stripped text after `python` of some piece that starts so. */
  predicate IsBlockOf(pieces: seq<string>, code: string) {
    exists j :: 0 <= j < |pieces| && StartsWith(pieces[j], Python) && code == Strip(pieces[j][|Python|..])
  }

  /** Each collected block is stripped and is the code of a piece starting with `python`. */
  lemma {:induction false} PythonBlocksSound(pieces: seq<string>)
    ensures forall k :: 0 <= k < |PythonBlocks(pieces)| ==> Stripped(PythonBlocks(pieces)[k])
    ensures forall k :: 0 <= k < |PythonBlocks(pieces)| ==> IsBlockOf(pieces, PythonBlocks(pieces)[k])
    decreases |pieces|
  {
    if |pieces| > 0 {
      var n := |pieces| - 1;
      var init := pieces[..n];
      var head := PythonBlocks(init);
      var r := PythonBlocks(pieces);
      PythonBlocksSound(init);
      assert r == head + BlockCode(pieces[n]);
      forall k | 0 <= k < |r|
        ensures Stripped(r[k]) && IsBlockOf(pieces, r[k])
      {
        if k < |head| {
          assert r[k] == head[k];
          assert IsBlockOf(init, head[k]);
          var j :| 0 <= j < |init| && StartsWith(init[j], Python) && head[k] == Strip(init[j][|Python|..]);
          assert init[j] == pieces[j];
          assert 0 <= j < |pieces| && StartsWith(pieces[j], Python) && r[k] == Strip(pieces[j][|Python|..]);
        } else {
          assert StartsWith(pieces[n], Python);
          assert 0 <= n < |pieces| && StartsWith(pieces[n], Python) && r[k] == Strip(pieces[n][|Python|..]);
        }
      }
    }
  }

  /** No block is collected when no piece starts with `python`, and one per piece when all do. */
  lemma {:induction false} PythonBlocksCount(pieces: seq<string>)
    ensures (forall j :: 0 <= j < |pieces| ==> !StartsWith(pieces[j], Python)) ==> PythonBlocks(pieces) == []
    ensures (forall j :: 0 <= j < |pieces| ==> StartsWith(pieces[j], Python)) ==> |PythonBlocks(pieces)| == |pieces|
    decreases |pieces|
  {
    if |pieces| > 0 {
      var init := pieces[..|pieces| - 1];
      PythonBlocksCount(init);
      assert forall j :: 0 <= j < |init| ==> init[j] == pieces[j];
    }
  }

  lemma BlockNoFence(piece: string)
    requires StartsWith(piece, Python) && !Contains(piece, Fence)
    ensures !Contains(Strip(piece[|Python|..]), Fence)
  {
    NotContainsSlice(piece, |Python|, |piece|, Fence);
    assert piece[|Python|..] == piece[|Python|..|piece|];
    StripNotContains(piece[|Python|..], Fence);
  }

  lemma PythonBlocksSnoc(ps: seq<string>, x: string)
    ensures PythonBlocks(ps + [x]) == PythonBlocks(ps) + BlockCode(x)
  {
    assert (ps + [x])[..|ps|] == ps;
  }

  /** The code blocks `send_response` collects from a completion. */
  function CodeBlocks(response: string): (r: seq<string>)
    ensures forall k :: 0 <= k < |r| ==> Stripped(r[k]) && !Contains(r[k], Fence)
  {
    var parts := Split(response, Fence);
    var r := PythonBlocks(OddPieces(parts));
    var odd := OddPieces(parts);
    PythonBlocksSound(odd);
    assert forall k :: 0 <= k < |r| ==> !Contains(r[k], Fence) by {
      forall k | 0 <= k < |r| ensures !Contains(r[k], Fence) {
        assert IsBlockOf(odd, r[k]);
        var j :| 0 <= j < |odd| && StartsWith(odd[j], Python) && r[k] == Strip(odd[j][|Python|..]);
        assert odd[j] == parts[2 * j + 1];
        BlockNoFence(odd[j]);
      }
    }
    r
  }

  /** A completion without a fence offers no code to run. */
  lemma NoFenceNoBlocks(response: string)
    requires !Contains(response, Fence)
    ensures CodeBlocks(response) == []
  {
    assert Split(response, Fence) == [response];
  }

  /** The slices `response[i:i + 2000]` for `i` in `range(0, len(response), 2000)`. */
  function Chunks(s: string): (r: seq<string>)
    ensures forall k :: 0 <= k < |r| ==> 0 < |r[k]| <= ChunkSize
    ensures forall k :: 0 <= k < |r| - 1 ==> |r[k]| == ChunkSize
    decreases |s|
  {
    if |s| == 0 then []
    else if |s| <= ChunkSize then [s]
    else
      var rest := Chunks(s[ChunkSize..]);
      [s[..ChunkSize]] + rest
  }

  /** A completion of `n` characters is sent as ⌈n / 2000⌉ messages. */
  lemma {:induction false} ChunksCount(s: string)
    ensures |Chunks(s)| == (|s| + ChunkSize - 1) / ChunkSize
    decreases |s|
  {
    if |s| > ChunkSize {
      ChunksCount(s[ChunkSize..]);
      assert |s| + ChunkSize - 1 == (|s| - ChunkSize + ChunkSize - 1) + ChunkSize;
    }
  }

  function Concat(cs: seq<string>): string
    decreases |cs|
  {
    if |cs| == 0 then "" else cs[0] + Concat(cs[1..])
  }

  /** The chunks, sent one after another, read as the whole completion. */
  lemma {:induction false} ChunksConcat(s: string)
    ensures Concat(Chunks(s)) == s
    decreases |s|
  {
    if |s| > ChunkSize {
      ChunksConcat(s[ChunkSize..]);
      assert Chunks(s)[1..] == Chunks(s[ChunkSize..]);
      assert s == s[..ChunkSize] + s[ChunkSize..];
    } else if |s| > 0 {
      assert Concat(Chunks(s)[1..]) == "";
      assert s + "" == s;
    }
  }

  /** An empty completion is sent as no message at all. */
  lemma NoChunksOnlyWhenEmpty(s: string)
    ensures Chunks(s) == [] <==> s == ""
  {
  }

  /** One turn of the chunk loop: the chunk at `j`, then the chunks after it. */
  lemma ChunksStep(s: string, j: nat)
    requires j < |s|
    ensures Chunks(s[j..]) == [s[j..Min(j + ChunkSize, |s|)]] + Chunks(s[Min(j + ChunkSize, |s|)..])
  {
    var t := s[j..];
    if |t| > ChunkSize {
      assert t[..ChunkSize] == s[j..j + ChunkSize];
      assert t[ChunkSize..] == s[j + ChunkSize..];
    } else {
      assert Min(j + ChunkSize, |s|) == |s|;
      assert s[|s|..] == [];
      assert t == s[j..|s|];
    }
  }

  lemma Half(n: nat, k: nat)
    ensures 2 * k + 1 < n ==> k < n / 2
    ensures 2 * k <= n <= 2 * k + 1 ==> k == n / 2
  {
  }

  /** `send_response`'s first step: split at the fences and keep the code of each `python` block. */
  method CollectCodeBlocks(response: string) returns (codeBlocks: seq<string>)
    ensures codeBlocks == CodeBlocks(response)
  {
    codeBlocks := PythonCode(Split(response, Fence));
  }

  /** One turn of the loop: the piece at odd index `2 * k + 1` is the next odd piece. */
  lemma PythonCodeStep(parts: seq<string>, k: nat)
    requires 2 * k + 1 < |parts|
    ensures k < |OddPieces(parts)|
    ensures var next := PythonBlocks(OddPieces(parts)[..k + 1]);
      var done := PythonBlocks(OddPieces(parts)[..k]);
      var piece := parts[2 * k + 1];
      next == if StartsWith(piece, Python) then done + [Strip(piece[|Python|..])] else done
  {
    var odd := OddPieces(parts);
    Half(|parts|, k);
    assert odd[..k + 1] == odd[..k] + [parts[2 * k + 1]];
    PythonBlocksSnoc(odd[..k], parts[2 * k + 1]);
  }

  /** When the index runs past the end, every odd piece has been visited. */
  lemma PythonCodeDone(parts: seq<string>, k: nat)
    requires 2 * k <= |parts| <= 2 * k + 1
    ensures OddPieces(parts)[..k] == OddPieces(parts)
  {
    Half(|parts|, k);
  }

  /** The loop over the odd indices of the split, `range(1, len(parts), 2)`. */
  method PythonCode(parts: seq<string>) returns (codeBlocks: seq<string>)
    ensures codeBlocks == PythonBlocks(OddPieces(parts))
  {
    codeBlocks := [];
    var i := 1;
    ghost var k := 0;
    while i < |parts|
      invariant i == 2 * k + 1 && 2 * k <= |parts|
      invariant codeBlocks == PythonBlocks(OddPieces(parts)[..k])
    {
      PythonCodeStep(parts, k);
      if StartsWith(parts[i], Python) {
        codeBlocks := codeBlocks + [Strip(parts[i][|Python|..])];
      }
      i := i + 2;
      k := k + 1;
    }
    PythonCodeDone(parts, k);
  }

  /** `send_response`'s second loop: the slice sent by each message. */
  method ChunkResponse(response: string) returns (chunks: seq<string>)
    ensures chunks == Chunks(response)
  {
    chunks := [];
    var j := 0;
    while j < |response|
      invariant 0 <= j && (j <= |response| || j - ChunkSize < |response|)
      invariant chunks + Chunks(response[Min(j, |response|)..]) == Chunks(response)
      decreases |response| - j
    {
      ChunksStep(response, j);
      var chunk := response[j..Min(j + ChunkSize, |response|)];
      var rest := Chunks(response[Min(j + ChunkSize, |response|)..]);
      assert Min(j, |response|) == j;
      assert chunks + ([chunk] + rest) == (chunks + [chunk]) + rest;
      chunks := chunks + [chunk];
      j := j + ChunkSize;
    }
    assert response[Min(j, |response|)..] == [];
  }

  /** `send_response`'s split of a completion: the code blocks, then the chunks to send. */
  method SplitResponse(response: string) returns (codeBlocks: seq<string>, chunks: seq<string>)
    ensures codeBlocks == CodeBlocks(response)
    ensures chunks == Chunks(response)
  {
    codeBlocks := CollectCodeBlocks(response);
    chunks := ChunkResponse(response);
  }
}
