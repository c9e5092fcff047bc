/** Byte streams, and a stream cut into the chunks that single calls carried. */
module Streams {

  newtype byte = b: int | 0 <= b < 256

  /** What a read call of `limit` bytes may return: 0 exactly at end of file, otherwise 1 up to `limit` bytes. */
  predicate MayRead(unread: seq<byte>, limit: nat, n: nat) {
    if unread == [] then n == 0 else 1 <= n <= limit && n <= |unread|
  }

  /** The number that a read call of `limit` bytes may return and that is nearest to `bytes`. */
  function Clip(unread: seq<byte>, limit: nat, bytes: nat): (n: nat)
    requires limit > 0
    ensures MayRead(unread, limit, n)
    ensures MayRead(unread, limit, bytes) ==> n == bytes
  {
    if unread == [] then 0
    else if bytes == 0 then 1
    else if bytes <= |unread| && bytes <= limit then bytes
    else if |unread| <= limit then |unread| else limit
  }

  function Flatten(chunks: seq<seq<byte>>): seq<byte> {
    if chunks == [] then [] else chunks[0] + Flatten(chunks[1..])
  }

  lemma {:induction false} FlattenAppend(a: seq<seq<byte>>, b: seq<seq<byte>>)
    ensures Flatten(a + b) == Flatten(a) + Flatten(b)
  {
    if a == [] {
      assert a + b == b;
    } else {
      assert (a + b)[1..] == a[1..] + b;
      FlattenAppend(a[1..], b);
    }
  }

  lemma FlattenOne(chunk: seq<byte>)
    ensures Flatten([chunk]) == chunk
  {
    assert Flatten([chunk]) == chunk + Flatten([]);
  }

  /** Chunks of 1 to `limit` bytes: their number lies between the length divided by `limit`, rounded up, and the
      length. */
  lemma {:induction false} ChunkCount(chunks: seq<seq<byte>>, limit: nat)
    requires forall i :: 0 <= i < |chunks| ==> 1 <= |chunks[i]| <= limit
    ensures |chunks| <= |Flatten(chunks)| <= limit * |chunks|
  {
    if chunks == [] {
    } else {
      var rest := chunks[1..];
      assert forall i :: 0 <= i < |rest| ==> rest[i] == chunks[i + 1];
      ChunkCount(rest, limit);
      Distribute(limit, |rest|);
    }
  }

  lemma Distribute(a: nat, n: nat)
    ensures a * (n + 1) == a * n + a
  {
  }
}
