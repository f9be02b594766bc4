/** IODevice::readIOData: reading a descriptor until it has no more. */
module ReadLoop {
  type Byte = b: int | -128 <= b < 128

  const BUFFER_SIZE := 2048

  /** How the sequence of reads ends: end of stream, or -1 with an errno, which includes
      would-block. */
  datatype End = EndOfStream | ReadError(errno: int)

  /** The kernel hands out the stream in pieces of at most a buffer, never empty ones. */
  ghost predicate Chunking(chunks: seq<seq<Byte>>) {
    forall i :: 0 <= i < |chunks| ==> 0 < |chunks[i]| <= BUFFER_SIZE
  }

  ghost function Concat(chunks: seq<seq<Byte>>): seq<Byte> {
    if chunks == [] then [] else chunks[0] + Concat(chunks[1..])
  }

  /** Nothing is nothing, and one piece more comes at the end. */
  lemma {:induction false} ConcatSnoc(chunks: seq<seq<Byte>>, last: seq<Byte>)
    ensures Concat([]) == []
    ensures Concat(chunks + [last]) == Concat(chunks) + last
  {
    if chunks == [] {
      assert chunks + [last] == [last];
      assert Concat([]) == [] && last + [] == last;
    } else {
      ConcatSnoc(chunks[1..], last);
      assert (chunks + [last])[1..] == chunks[1..] + [last];
    }
  }

  lemma ConcatEmptyIff(chunks: seq<seq<Byte>>)
    requires Chunking(chunks)
    ensures Concat(chunks) == [] <==> chunks == []
  {
  }

  /** What the k-th read(2) returns: the size of the next piece, or 0 or -1 at the end. */
  function NBytes(chunks: seq<seq<Byte>>, end: End, k: nat): int {
    if k < |chunks| then |chunks[k]| else if end.ReadError? then -1 else 0
  }

  /** The loop.  What it returns depends only on the bytes up to the end, not on the
      pieces: all of them, and an error only if there were none and the first read
      failed. */
  method ReadIOData(chunks: seq<seq<Byte>>, end: End) returns (data: seq<Byte>, error: bool)
    requires Chunking(chunks)
    ensures data == Concat(chunks)
    ensures error <==> Concat(chunks) == [] && end.ReadError?
  {
    ConcatEmptyIff(chunks);
    data := [];
    var done := 0;
    var nbytes := NBytes(chunks, end, done);
    error := nbytes == -1;
    assert chunks[..0] == [];
    while nbytes > 0
      invariant done <= |chunks| && nbytes == NBytes(chunks, end, done)
      invariant data == Concat(chunks[..done])
      decreases |chunks| - done
    {
      var buffer := chunks[done];
      ghost var before := data;
      var x := 0;
      while x < nbytes
        invariant x <= nbytes && data == before + buffer[..x]
      {
        data := data + [buffer[x]];
        x := x + 1;
      }
      assert buffer[..x] == buffer;
      ConcatSnoc(chunks[..done], buffer);
      assert chunks[..done + 1] == chunks[..done] + [buffer];
      done := done + 1;
      nbytes := NBytes(chunks, end, done);
    }
    assert chunks[..done] == chunks;
  }
}
