/**
 * Bytes, the 32-bit counts the transport passes around, and the FIFO
 * discipline of its two memory buffers (append at the tail, read from the head).
 */
module Fifo {

  type Byte = bv8

  const TwoPow32: nat := 0x1_0000_0000

  /** The `uint32_t` of the transport's read/write surface. */
  newtype uint32 = x: int | 0 <= x < 0x1_0000_0000

  function Min(a: nat, b: nat): nat
  {
    if a <= b then a else b
  }

  /** Storing a `size_t` product into a `uint32_t`: only the low 32 bits survive. */
  function Truncate32(n: nat): (r: nat)
    ensures r < TwoPow32
    ensures n < TwoPow32 ==> r == n
  {
    n % TwoPow32
  }

  /**
   * Reading up to n bytes from the head of a buffer: the bytes handed out
   * (never more than are available) and the bytes that stay behind.
   */
  function Take(buf: seq<Byte>, n: nat): (r: (seq<Byte>, seq<Byte>))
    ensures |r.0| == Min(n, |buf|)
    ensures r.0 + r.1 == buf
  {
    var m := Min(n, |buf|);
    (buf[..m], buf[m..])
  }

  /** The bytes of a sequence of chunks, in order. */
  function Concat(chunks: seq<seq<Byte>>): seq<Byte>
  {
    if chunks == [] then [] else chunks[0] + Concat(chunks[1..])
  }

  lemma {:induction false} ConcatAppend(a: seq<seq<Byte>>, b: seq<seq<Byte>>)
    ensures Concat(a + b) == Concat(a) + Concat(b)
  {
    if a == [] {
      assert a + b == b;
    } else {
      assert (a + b)[1..] == a[1..] + b;
      ConcatAppend(a[1..], b);
    }
  }

  /**
   * The chunks that successive calls of the request-body callback hand to
   * the engine when the k-th call (counting from i) asks for ask(k) bytes;
   * the engine stops at the first call that yields no bytes.
   */
  function BodyChunks(buf: seq<Byte>, ask: nat -> nat, i: nat): seq<seq<Byte>>
    decreases |buf|
  {
    var (chunk, rest) := Take(buf, ask(i));
    if chunk == [] then [] else [chunk] + BodyChunks(rest, ask, i + 1)
  }

  /** One call of the request-body callback that yields bytes peels them off the drain. */
  lemma BodyChunksStep(buf: seq<Byte>, ask: nat -> nat, i: nat)
    requires Take(buf, ask(i)).0 != []
    ensures Concat(BodyChunks(buf, ask, i)) ==
            Take(buf, ask(i)).0 + Concat(BodyChunks(Take(buf, ask(i)).1, ask, i + 1))
  {
    var (chunk, rest) := Take(buf, ask(i));
    assert BodyChunks(buf, ask, i) == [chunk] + BodyChunks(rest, ask, i + 1);
    assert ([chunk] + BodyChunks(rest, ask, i + 1))[1..] == BodyChunks(rest, ask, i + 1);
  }

  /**
   * The chunks the engine takes when it calls the request-body callback at
   * most `calls` times: it stops early at the first call that yields no bytes.
   */
  function BodyChunksWithin(buf: seq<Byte>, ask: nat -> nat, i: nat, calls: nat): seq<seq<Byte>>
    decreases calls
  {
    if calls == 0 then []
    else
      var (chunk, rest) := Take(buf, ask(i));
      if chunk == [] then [] else [chunk] + BodyChunksWithin(rest, ask, i + 1, calls - 1)
  }

  /**
   * One call of the request-body callback that hands out `chunk` from the
   * head of `before`, leaving `after`: a non-empty chunk moves from what is
   * queued to what was sent and uses up one call of the budget; an empty
   * one ends the drain.
   */
  lemma DrainStep(sent: seq<Byte>, before: seq<Byte>, chunk: seq<Byte>, after: seq<Byte>,
                  ask: nat -> nat, i: nat, calls: nat)
    requires calls > 0
    requires |chunk| == Min(ask(i), |before|) && chunk + after == before
    ensures (chunk, after) == Take(before, ask(i))
    ensures chunk == [] ==> BodyChunksWithin(before, ask, i, calls) == []
    ensures chunk != [] ==> sent + before == (sent + chunk) + after
    ensures chunk != [] ==>
              sent + Concat(BodyChunksWithin(before, ask, i, calls)) ==
              (sent + chunk) + Concat(BodyChunksWithin(after, ask, i + 1, calls - 1))
  {
    assert chunk == before[..|chunk|] && after == before[|chunk|..];
    if chunk != [] {
      var tail := BodyChunksWithin(after, ask, i + 1, calls - 1);
      assert BodyChunksWithin(before, ask, i, calls) == [chunk] + tail;
      assert ([chunk] + tail)[1..] == tail;
      assert sent + (chunk + after) == (sent + chunk) + after;
      assert sent + (chunk + Concat(tail)) == (sent + chunk) + Concat(tail);
    }
  }

  /**
   * Every call that yields bytes yields at least one, so a budget of as many
   * calls as there are bytes never cuts the drain short.
   */
  lemma {:induction false} BodyChunksWithinEnough(buf: seq<Byte>, ask: nat -> nat, i: nat, calls: nat)
    requires calls >= |buf|
    ensures BodyChunksWithin(buf, ask, i, calls) == BodyChunks(buf, ask, i)
    decreases |buf|
  {
    var (chunk, rest) := Take(buf, ask(i));
    if chunk != [] {
      BodyChunksWithinEnough(rest, ask, i + 1, calls - 1);
    }
  }

  /** With positive requests and a budget of at least one call per byte, the whole buffer goes out. */
  lemma DrainWithinAll(buf: seq<Byte>, ask: nat -> nat, calls: nat)
    requires forall j: nat :: ask(j) > 0
    requires calls >= |buf|
    ensures Concat(BodyChunksWithin(buf, ask, 0, calls)) == buf
  {
    BodyChunksWithinEnough(buf, ask, 0, calls);
    BodyChunksDeliverAll(buf, ask, 0);
  }

  /** Every chunk is non-empty and no longer than the request (counted from i) that produced it. */
  predicate WithinAsks(chunks: seq<seq<Byte>>, ask: nat -> nat, i: nat)
  {
    forall k :: 0 <= k < |chunks| ==> 0 < |chunks[k]| <= ask(i + k)
  }

  /**
   * Draining the buffer with any schedule of positive request sizes hands
   * out every byte exactly once, in order, never more than was asked for.
   */
  lemma {:induction false} BodyChunksDeliverAll(buf: seq<Byte>, ask: nat -> nat, i: nat)
    requires forall j: nat :: i <= j ==> ask(j) > 0
    ensures Concat(BodyChunks(buf, ask, i)) == buf
    ensures WithinAsks(BodyChunks(buf, ask, i), ask, i)
    decreases |buf|
  {
    BodyChunksConcat(buf, ask, i);
    BodyChunksBounded(buf, ask, i);
  }

  lemma {:induction false} BodyChunksConcat(buf: seq<Byte>, ask: nat -> nat, i: nat)
    requires forall j: nat :: i <= j ==> ask(j) > 0
    ensures Concat(BodyChunks(buf, ask, i)) == buf
    decreases |buf|
  {
    var (chunk, rest) := Take(buf, ask(i));
    if chunk != [] {
      BodyChunksConcat(rest, ask, i + 1);
      BodyChunksStep(buf, ask, i);
    } else {
      assert ask(i) > 0;
    }
  }

  lemma {:induction false} BodyChunksBounded(buf: seq<Byte>, ask: nat -> nat, i: nat)
    ensures WithinAsks(BodyChunks(buf, ask, i), ask, i)
    decreases |buf|
  {
    var (chunk, rest) := Take(buf, ask(i));
    if chunk != [] {
      BodyChunksBounded(rest, ask, i + 1);
      var tail := BodyChunks(rest, ask, i + 1);
      var chunks := [chunk] + tail;
      assert BodyChunks(buf, ask, i) == chunks;
      forall k | 0 <= k < |chunks|
        ensures 0 < |chunks[k]| <= ask(i + k)
      {
        if k > 0 {
          assert chunks[k] == tail[k - 1];
          assert 0 < |tail[k - 1]| <= ask((i + 1) + (k - 1));
          assert (i + 1) + (k - 1) == i + k;
        } else {
          assert chunks[0] == chunk;
        }
      }
    }
  }
}
