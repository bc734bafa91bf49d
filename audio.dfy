/**
 * Buffering of the speech service's audio stream into one payload,
 * `convertAudioStreamToBuffer` (index.js lines 323-345).
 */
module Audio {
  import opened Results

  /** `Buffer.concat(chunks)`: the bytes of all chunks, in order. */
  function Flatten(chunks: seq<seq<byte>>): seq<byte> {
    if chunks == [] then [] else Flatten(chunks[..|chunks| - 1]) + chunks[|chunks| - 1]
  }

  /** Where chunk `i` starts in the concatenation. */
  function Offset(chunks: seq<seq<byte>>, i: nat): nat
    requires i <= |chunks|
  {
    |Flatten(chunks[..i])|
  }

  /** Concatenating two runs of chunks concatenates their bytes. */
  lemma {:induction false} FlattenAppend(a: seq<seq<byte>>, b: seq<seq<byte>>)
    ensures Flatten(a + b) == Flatten(a) + Flatten(b)
    decreases |b|
  {
    if b == [] {
      assert a + b == a;
    } else {
      var n := |b| - 1;
      assert (a + b)[..|a + b| - 1] == a + b[..n];
      FlattenAppend(a, b[..n]);
    }
  }

  /**
   * Chunk `i` is found, unchanged, right after the bytes of the chunks
   * before it: the buffer keeps every chunk and their order.
   */
  lemma {:induction false} ChunkInPlace(chunks: seq<seq<byte>>, i: nat)
    requires i < |chunks|
    ensures Offset(chunks, i) + |chunks[i]| <= |Flatten(chunks)|
    ensures Flatten(chunks)[Offset(chunks, i)..Offset(chunks, i) + |chunks[i]|] == chunks[i]
  {
    var before, after := chunks[..i], chunks[i + 1..];
    assert chunks == before + [chunks[i]] + after;
    FlattenAppend(before + [chunks[i]], after);
    FlattenAppend(before, [chunks[i]]);
    assert Flatten([chunks[i]]) == Flatten([]) + chunks[i];
  }

  /**
   * Collects every chunk the stream delivers, in arrival order, and
   * concatenates them when the stream ends. The result is a success even
   * when the stream delivered no chunk at all (an empty buffer).
   */
  method ConvertAudioStreamToBuffer(stream: seq<seq<byte>>) returns (r: Outcome<seq<byte>>)
    ensures r == Succeeded(Flatten(stream))
  {
    var audioBuffer: seq<seq<byte>> := [];
    var i := 0;
    while i < |stream|
      invariant 0 <= i <= |stream|
      invariant audioBuffer == stream[..i]
    {
      audioBuffer := audioBuffer + [stream[i]];
      i := i + 1;
    }
    assert stream[..i] == stream;
    r := Succeeded(Flatten(audioBuffer));
  }
}
