/** Byte buffers held in chunks, and reassembly of a message from them. */
module Buffers {

  newtype byte = x: int | 0 <= x < 256

  type Chunks = seq<seq<byte>>

  function Flatten(chunks: Chunks): seq<byte> {
    if |chunks| == 0 then [] else chunks[0] + Flatten(chunks[1..])
  }

  /** Drops the first `n` bytes, as a dynamic buffer's consume does. */
  function Consume(chunks: Chunks, n: nat): Chunks {
    if |chunks| == 0 then []
    else if n >= |chunks[0]| then Consume(chunks[1..], n - |chunks[0]|)
    else [chunks[0][n..]] + chunks[1..]
  }

  lemma {:induction false} FlattenConcat(a: Chunks, b: Chunks)
    ensures Flatten(a + b) == Flatten(a) + Flatten(b)
    decreases |a|
  {
    if |a| == 0 {
      assert a + b == b;
    } else {
      FlattenConcat(a[1..], b);
      assert (a + b)[1..] == a[1..] + b;
    }
  }

  /** With FlattenConcat this is all there is to flattening: bytes and their order stay. */
  lemma FlattenOne(chunk: seq<byte>)
    ensures Flatten([chunk]) == chunk && Flatten([]) == []
  {
    assert [chunk][1..] == [];
  }

  /** Chunk boundaries never show: consuming acts on the flattened bytes. */
  lemma {:induction false} ConsumeDropsPrefix(chunks: Chunks, n: nat)
    ensures Flatten(Consume(chunks, n))
         == if n <= |Flatten(chunks)| then Flatten(chunks)[n..] else []
    decreases |chunks|
  {
    if |chunks| > 0 {
      if n >= |chunks[0]| {
        ConsumeDropsPrefix(chunks[1..], n - |chunks[0]|);
      } else {
        var c := Consume(chunks, n);
        assert c[0] == chunks[0][n..] && c[1..] == chunks[1..];
      }
    }
  }

  /** The raw data part of a message. */
  class MessageData {
    var data: seq<byte>

    constructor ()
      ensures data == []
    {
      data := [];
    }

    /** Text frames are not copied. */
    method FromConstBuffers(buffers: Chunks, text: bool)
      modifies this
      ensures data == old(data) + if text then [] else Flatten(buffers)
    {
      if !text {
        var i := 0;
        assert buffers[0..] == buffers;
        while i < |buffers|
          invariant 0 <= i <= |buffers|
          invariant data + Flatten(buffers[i..]) == old(data) + Flatten(buffers)
        {
          ghost var before := data;
          var j := 0;
          while j < |buffers[i]|
            invariant 0 <= j <= |buffers[i]|
            invariant data == before + buffers[i][..j]
          {
            data := data + [buffers[i][j]];
            j := j + 1;
          }
          assert buffers[i..][1..] == buffers[i + 1..];
          assert data + Flatten(buffers[i + 1..]) == before + (buffers[i] + Flatten(buffers[i + 1..]));
          i := i + 1;
        }
      }
    }
  }
}
