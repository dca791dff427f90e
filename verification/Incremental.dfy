/**
 * The loop that the three message parsers share: take bytes from a queue, one at a time, until the
 * queue is empty or the parser has halted.
 */
module Incremental {
  import opened Common

  datatype Machine<!P> = Machine(step: (P, byte) -> P, halted: P -> bool)

  /** The parser after the loop has run over `bs`. */
  function Feed<P>(m: Machine<P>, p: P, bs: seq<byte>): P
    decreases |bs|
  {
    if bs == [] || m.halted(p) then p else Feed(m, m.step(p, bs[0]), bs[1..])
  }

  /** How many bytes of `bs` the loop takes. */
  function Consumed<P>(m: Machine<P>, p: P, bs: seq<byte>): (k: nat)
    ensures k <= |bs|
    ensures !m.halted(Feed(m, p, bs)) ==> k == |bs|
    decreases |bs|
  {
    if bs == [] || m.halted(p) then 0 else 1 + Consumed(m, m.step(p, bs[0]), bs[1..])
  }

  /** Each chunk is appended to what the previous call left in the buffer, then parsed. */
  function FeedChunks<P>(m: Machine<P>, p: P, left: seq<byte>, chunks: seq<seq<byte>>): (P, seq<byte>)
    decreases |chunks|
  {
    if chunks == [] then (p, left)
    else
      var bs := left + chunks[0];
      FeedChunks(m, Feed(m, p, bs), bs[Consumed(m, p, bs)..], chunks[1..])
  }

  function Concat(chunks: seq<seq<byte>>): seq<byte> {
    if chunks == [] then [] else chunks[0] + Concat(chunks[1..])
  }

  lemma {:induction false} FeedSplit<P>(m: Machine<P>, p: P, a: seq<byte>, b: seq<byte>)
    ensures var rest := a[Consumed(m, p, a)..] + b;
            && Feed(m, p, a + b) == Feed(m, Feed(m, p, a), rest)
            && Consumed(m, p, a + b) == Consumed(m, p, a) + Consumed(m, Feed(m, p, a), rest)
    decreases |a|
  {
    if a == [] || m.halted(p) {
      assert a[0..] + b == a + b;
    } else {
      assert (a + b)[1..] == a[1..] + b;
      FeedSplit(m, m.step(p, a[0]), a[1..], b);
      assert a[Consumed(m, p, a)..] == a[1..][Consumed(m, m.step(p, a[0]), a[1..])..];
    }
  }

  lemma {:induction false} NothingLeft<P>(m: Machine<P>, p: P, bs: seq<byte>)
    ensures Consumed(m, Feed(m, p, bs), bs[Consumed(m, p, bs)..]) == 0
    decreases |bs|
  {
    if bs == [] || m.halted(p) {
      assert bs[0..] == bs;
    } else {
      NothingLeft(m, m.step(p, bs[0]), bs[1..]);
      assert bs[Consumed(m, p, bs)..] == bs[1..][Consumed(m, m.step(p, bs[0]), bs[1..])..];
    }
  }

  /** The first chunk may as well have come together with all that follow it. */
  lemma FirstChunk<P>(m: Machine<P>, p: P, bs: seq<byte>, tail: seq<byte>)
    ensures var k, whole := Consumed(m, p, bs), bs + tail;
            && Feed(m, p, whole) == Feed(m, Feed(m, p, bs), bs[k..] + tail)
            && whole[Consumed(m, p, whole)..] == (bs[k..] + tail)[Consumed(m, Feed(m, p, bs), bs[k..] + tail)..]
  {
    hide Feed, Consumed;
    var k := Consumed(m, p, bs);
    FeedSplit(m, p, bs, tail);
    assert (bs + tail)[k..] == bs[k..] + tail;
  }

  /** How TCP cuts the stream does not matter: same parser, same leftover. */
  lemma {:induction false} ChunkingIrrelevant<P>(m: Machine<P>, p: P, left: seq<byte>, chunks: seq<seq<byte>>)
    requires Consumed(m, p, left) == 0
    ensures var whole := left + Concat(chunks);
            FeedChunks(m, p, left, chunks) == (Feed(m, p, whole), whole[Consumed(m, p, whole)..])
    decreases |chunks|
  {
    if chunks == [] {
      assert left + [] == left && left[0..] == left;
      assert left == [] || m.halted(p);
    } else {
      hide Feed, Consumed;
      var bs, tail := left + chunks[0], Concat(chunks[1..]);
      NothingLeft(m, p, bs);
      ChunkingIrrelevant(m, Feed(m, p, bs), bs[Consumed(m, p, bs)..], chunks[1..]);
      FirstChunk(m, p, bs, tail);
      assert left + Concat(chunks) == bs + tail;
    }
  }

  /** What every step keeps about the parser and the bytes it has read, the loop keeps. */
  lemma {:induction false} FeedInvariant<P(!new)>(m: Machine<P>, inv: (P, seq<byte>) -> bool, p: P, seen: seq<byte>, bs: seq<byte>)
    requires inv(p, seen)
    requires forall q, s, c: byte :: inv(q, s) && !m.halted(q) ==> inv(m.step(q, c), s + [c])
    ensures inv(Feed(m, p, bs), seen + bs[..Consumed(m, p, bs)])
    decreases |bs|
  {
    if bs == [] || m.halted(p) {
      assert seen + bs[..0] == seen;
    } else {
      var q := m.step(p, bs[0]);
      FeedInvariant(m, inv, q, seen + [bs[0]], bs[1..]);
      assert seen + bs[..Consumed(m, p, bs)] == (seen + [bs[0]]) + bs[1..][..Consumed(m, q, bs[1..])];
    }
  }

  /** What the loop does not take does not matter to it. */
  lemma {:induction false} FeedTaken<P>(m: Machine<P>, p: P, bs: seq<byte>)
    ensures var k := Consumed(m, p, bs);
            Feed(m, p, bs[..k]) == Feed(m, p, bs) && Consumed(m, p, bs[..k]) == k
    decreases |bs|
  {
    if bs == [] || m.halted(p) {
      assert bs[..0] == [];
    } else {
      var q := m.step(p, bs[0]);
      FeedTaken(m, q, bs[1..]);
      assert bs[..Consumed(m, p, bs)][1..] == bs[1..][..Consumed(m, q, bs[1..])];
    }
  }

  /** A parser that took all of `seen` and goes on with `bs` is where one run over both leads. */
  lemma FeedOn<P>(m: Machine<P>, p: P, seen: seq<byte>, bs: seq<byte>)
    requires Consumed(m, p, seen) == |seen|
    ensures Feed(m, p, seen + bs) == Feed(m, Feed(m, p, seen), bs)
    ensures Consumed(m, p, seen + bs) == |seen| + Consumed(m, Feed(m, p, seen), bs)
  {
    hide Feed, Consumed;
    FeedSplit(m, p, seen, bs);
    assert seen[|seen|..] + bs == bs;
  }

  /** A parser that has taken all of `seen` goes on with `bs`: the same as one run over what it took. */
  lemma FeedMore<P>(m: Machine<P>, p: P, seen: seq<byte>, bs: seq<byte>)
    requires !m.halted(Feed(m, p, seen))
    ensures var q := Feed(m, p, seen);
            var k := Consumed(m, q, bs);
            && Feed(m, p, seen + bs[..k]) == Feed(m, q, bs)
            && Consumed(m, p, seen + bs[..k]) == |seen| + k
  {
    var q := Feed(m, p, seen);
    var k := Consumed(m, q, bs);
    FeedSplit(m, p, seen, bs[..k]);
    assert seen[Consumed(m, p, seen)..] + bs[..k] == bs[..k];
    FeedTaken(m, q, bs);
  }
}
